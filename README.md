# code2postman-mcp, modelled in Dafny

The model covers the deterministic core of the code2postman MCP server.

The directory-listing tool, `get_tree_directory_from_path`:
- checks the language tag;
- walks a directory tree top-down, as `os.walk` does;
- prunes excluded subdirectories in place;
- suppresses directories with an excluded path component;
- lists the remaining files in sorted order, indented by depth, each with its line count.

The file-excerpt tool, `read_file`, validates and clamps a line range. It returns a `Total lines: N` header, then numbered lines.

The Postman collection tools load a collection file as JSON, change the document, write it back and return it. They can:
- create and read a collection;
- append an item, event or variable;
- merge into `info`;
- set `auth` or `protocolProfileBehavior`;
- delete items by name;
- update the first variable with a key.

The two helpers are `count_lines` and `is_a_valid_item`.

Files:
- `wrappers.dfy`: `Option`, `Result`, and the Python exceptions the tools raise (`Exceptions.Error`).
- `text.dfy`: the string operations the tools use:
  - `str()` of a number, right alignment (`{:4d}`), `join` and `split`;
  - ASCII `lower()`, `endswith`, substring search;
  - the lines `readlines()` gives.
- `filesystem.dfy`: a directory tree (`FileSystem.Dir`), plus `sorted()` on file entries by name (`Sorting`).
- `json.dfy`: JSON values, Python's `in` on a value, and what a `for` loop over a value hands to its body.
- `files.dfy`: `utils/files.py`.
- `sequences.dfy`: order-preserving selection (`Subsequence`).
- `handle_files.dfy`: `tools/handle_files.py`:
  - The walk is specified by the recursive pre-order `Visit`/`VisitAll` and its list of visited directories `Walked`.
  - `WalkTree` runs the walk with an explicit stack, as CPython's `os.walk` does, and is proved equal to `Visit`.
- `postman.dfy`: `tools/handle_postman.py`:
  - The files form the `disk` field of the class `CollectionStore`, a map from path to document.
  - Every tool is a method on it.
  - The edit each tool makes is a function on documents, with its own lemmas.

## Model

| member | source | states |
|---|---|---|
| HandleFiles.ParseLanguage | src/postman_generator_mcp/tools/handle_files.py:20-22 | the tag is accepted exactly when it is the value of some `Language` member, and that member is returned |
| HandleFiles.RulesFor | src/postman_generator_mcp/tools/handle_files.py:25 | the entry for the language, else the generic entry; the generic default is looked up eagerly, so a table without it fails (KeyError) for every language |
| HandleFiles.GetTreeDirectoryFromPath | src/postman_generator_mcp/tools/handle_files.py:19-79 | a tag that is not a language after lower-casing gives the invalid-language error, and no directory is walked; otherwise the result is the top's `basename/` line, then the lines of the pre-order walk, joined with "\n"; the ghost `walked` is the list of directories `os.walk` yields |
| HandleFiles.WalkTree | src/postman_generator_mcp/tools/handle_files.py:39-77 | the stack-driven walk appends exactly the lines of the recursive pre-order visit, and yields exactly its directories |
| HandleFiles.WalkTurn | src/postman_generator_mcp/tools/handle_files.py:39-77 | one turn of the walk visits the directory on top of the stack and puts the subdirectories left in `dirs` in its place; the remaining output is unchanged and the measure decreases |
| HandleFiles.WalkStep | src/postman_generator_mcp/tools/handle_files.py:39-77 | replacing the top frame by its own lines and its children keeps the total output, and the yielded directories, equal |
| HandleFiles.VisitStep | src/postman_generator_mcp/tools/handle_files.py:39-77 | the visit from a frame is its own lines, then the visits of the subdirectories left after pruning, then the visits of the rest of the stack |
| HandleFiles.VisitDirectory | src/postman_generator_mcp/tools/handle_files.py:41-77 | the loop body appends the lines of the directory and leaves in `dirs` the subdirectories the walk descends into |
| HandleFiles.VisitSubdirectory | src/postman_generator_mcp/tools/handle_files.py:54-77 | a directory below the top with a path component matching a directory pattern appends nothing, and its `dirs` list stays unpruned; any other directory gets a pruned `dirs` list and its own lines |
| HandleFiles.PruneKeepsUnmatched | src/postman_generator_mcp/tools/handle_files.py:43 | the pruned `dirs` keeps every subdirectory no pattern matches, in order and with its multiplicity, and nothing else |
| HandleFiles.KeepFilesKeepsUnmatched | src/postman_generator_mcp/tools/handle_files.py:47 | the listed files are exactly the files no file pattern matches, in their order and with their multiplicity |
| HandleFiles.ListedFilesSortedAndFiltered | src/postman_generator_mcp/tools/handle_files.py:46-47 | the files listed for a directory are in ascending order of name, none matches a file pattern, and they are a permutation of the unmatched files |
| HandleFiles.AppendFileLines | src/postman_generator_mcp/tools/handle_files.py:73-77 | the loop over `sorted(files)` appends one `name (N lines)` line per unmatched file, in sorted order, after the lines already there |
| HandleFiles.WalkAvoidsExcluded | src/postman_generator_mcp/tools/handle_files.py:56-63 | when no name holds '/', no directory the walk yields has a path component matching a directory pattern, so the suppression of lines 58-60 never fires |
| HandleFiles.VisitListsNoExcluded | src/postman_generator_mcp/tools/handle_files.py:43-77 | no directory line names a directory that a pattern matches, and no file line names a file that a pattern matches |
| HandleFiles.IndentByDepth | src/postman_generator_mcp/tools/handle_files.py:66-77 | the level, counted as separators in the relative path, is the depth minus one; so a non-suppressed directory n components below the top contributes its `name/` line at 4*n blanks, then its file lines at 4*(n+1) blanks, while the top's files (line 50) get 4 |
| HandleFiles.ListingLines | src/postman_generator_mcp/tools/handle_files.py:35-79 | when no name holds a newline, the joined listing splits back into its lines, and the first of them is `basename(path) + "/"` |
| HandleFiles.ReadFile | src/postman_generator_mcp/tools/handle_files.py:81-126 | errors come in the source's order: file not found, not a file, negative start, a file that cannot be opened or read (OSError), text that is not UTF-8, end before start (this includes an empty file with the defaults); on success the result is the header, then the numbered lines from start to the clamped end |
| HandleFiles.NumberLines | src/postman_generator_mcp/tools/handle_files.py:120-124 | the loop produces the header followed by the numbered lines start..end, one per index |
| HandleFiles.ClampEnd | src/postman_generator_mcp/tools/handle_files.py:114-115 | an end that is missing or past the file becomes the last index; any other end is kept |
| HandleFiles.NumberedLineRoundTrip | src/postman_generator_mcp/tools/handle_files.py:124 | an entry `{i+1:4d} \| line` reads back as the 1-based number and the unchanged line |
| HandleFiles.ExcerptLines | src/postman_generator_mcp/tools/handle_files.py:120-124 | the excerpt has end-start+1 entries, and entry k is line start+k under the number start+k+1 |
| HandleFiles.WholeFileExcerpt | src/postman_generator_mcp/tools/handle_files.py:110-115 | with the defaults, the excerpt numbers every line of the file, and the lines make up the whole text |
| Files.CountLines | src/code2postman_mcp/utils/files.py:11-15 | 0 when the file cannot be read; otherwise the number of '\n' characters, plus one for a trailing piece without one |
| Files.CountLinesIsReadlines | src/code2postman_mcp/utils/files.py:13 | the lines iteration over the file yields, which the count counts, make up the whole text; none is empty and every one but the last ends in '\n' |
| Files.CountTerminatedLines | src/code2postman_mcp/utils/files.py:13 | n lines, each ending in its only '\n', count n |
| Files.CountLinesThreeLines | src/code2postman_mcp/utils/files.py:13 | "Line 1\nLine 2\nLine 3\n" counts 3 |
| Files.ValidItemDependsOnTwoKeys | src/code2postman_mcp/utils/files.py:17-21 | two items with the same presence of "name" and of "request" are equally valid; no other key and no value matters |
| HandlePostman.Load | src/code2postman_mcp/tools/handle_postman.py:31-32 | loading succeeds exactly on an existing, readable file whose text is JSON; otherwise the error is FileNotFound for a missing file, OSError for a file that cannot be opened or read, UnicodeDecodeError for bytes that are not text, and JSONDecodeError for text that is not JSON |
| HandlePostman.CollectionStore.CreateCollection | src/code2postman_mcp/tools/handle_postman.py:17-25 | a path not ending in ".json" is refused before the file is touched; otherwise the filled-in template is written to the path and returned |
| HandlePostman.CollectionStore.ReadCollection | src/code2postman_mcp/tools/handle_postman.py:51-58 | the suffix is checked first, then existence, then the content is loaded, with the OSError, UnicodeDecodeError and JSONDecodeError cases of the load; nothing changes |
| HandlePostman.AppendTo | src/code2postman_mcp/tools/handle_postman.py:37-40 | the list under the key is created when absent and gets the entry appended at its end; the earlier entries and every other key are unchanged; a non-object document raises TypeError and a non-list value raises AttributeError |
| HandlePostman.CollectionStore.AddItem | src/code2postman_mcp/tools/handle_postman.py:27-45 | the file is loaded first; an item without "name" or "request" raises ValueError and nothing is written; otherwise the item is appended under "item" and the written document is returned |
| HandlePostman.MergeInfo | src/code2postman_mcp/tools/handle_postman.py:73-76 | "info" becomes the old info (or {}) overridden key by key by the argument; keys not in the argument keep their values; other keys are unchanged |
| HandlePostman.CollectionStore.AddInfo | src/code2postman_mcp/tools/handle_postman.py:60-81 | the merged document is written back and returned; on any error nothing is written |
| HandlePostman.CollectionStore.AddEvent | src/code2postman_mcp/tools/handle_postman.py:83-104 | the event is appended under "event", and the written document is returned |
| HandlePostman.CollectionStore.AddVariable | src/code2postman_mcp/tools/handle_postman.py:106-127 | the variable is appended under "variable", and the written document is returned |
| HandlePostman.SetKey | src/code2postman_mcp/tools/handle_postman.py:142 | the key is set to exactly the argument, and no other key changes |
| HandlePostman.CollectionStore.AddAuth | src/code2postman_mcp/tools/handle_postman.py:129-147 | "auth" is set to the argument, whatever it held, and the written document is returned |
| HandlePostman.CollectionStore.AddProtocolBehavior | src/code2postman_mcp/tools/handle_postman.py:149-167 | "protocolProfileBehavior" is set to the argument, and the written document is returned |
| HandlePostman.KeepUnnamedMeaning | src/code2postman_mcp/tools/handle_postman.py:185 | the comprehension succeeds exactly on lists of dicts; it keeps exactly the entries whose "name" differs (nameless ones included), in order and with their multiplicity |
| HandlePostman.KeepUnnamedOfUnnamed | src/code2postman_mcp/tools/handle_postman.py:185 | when no entry has the name, the list comes out unchanged, at the same length |
| HandlePostman.DeleteRemovesNamed | src/code2postman_mcp/tools/handle_postman.py:182-185 | after a delete, no item has the name, the rest keep their order, and no other key changes |
| HandlePostman.DeleteIdempotent | src/code2postman_mcp/tools/handle_postman.py:169-190 | deleting twice by the same name is the same as deleting once |
| HandlePostman.AddThenDelete | src/code2postman_mcp/tools/handle_postman.py:37-40 | appending an item with a name and then deleting by that name gives the delete alone |
| HandlePostman.CollectionStore.DeleteItem | src/code2postman_mcp/tools/handle_postman.py:169-190 | a document without "item" is returned as it is and not rewritten; otherwise the filtered document is written back and returned |
| HandlePostman.FirstKeyedFrom | src/code2postman_mcp/tools/handle_postman.py:209-212 | the loop stops at the first dict whose "key" matches, and every entry before it is a dict without that key; it fails (AttributeError) only at a non-dict reached before any match |
| HandlePostman.SetFirstValue | src/code2postman_mcp/tools/handle_postman.py:209-212 | the loop with `break` sets "value" on the first matching variable only, and is an error exactly when the scan meets a non-dict first |
| HandlePostman.UpdateHitsSameEntry | src/code2postman_mcp/tools/handle_postman.py:209-212 | after the update, the same entry is the first match and holds the new value; the length is unchanged and every other entry, later duplicates included, is untouched |
| HandlePostman.UpdateIdempotent | src/code2postman_mcp/tools/handle_postman.py:192-217 | updating twice with the same key and value is the same as updating once |
| HandlePostman.CollectionStore.UpdateVariable | src/code2postman_mcp/tools/handle_postman.py:192-217 | a document without "variable" is returned as it is and not rewritten; otherwise the updated document is written back and returned |

## Left out

- Regular expressions: an exclusion pattern is taken as literal text, searched for as a substring (`AnyMatch`).
- Metacharacters are not modelled.
- The exclusion table `EXCLUDED_ITEMS` and the `Language` enumeration live in `consts/excluded_files`, which is not part of this model.
  - The table is a parameter of `GetTreeDirectoryFromPath`.
  - The eight language tags are those the docstring lists.
- HandleFiles.RulesFor: every table entry carries both a directory list and a file list, so the `.get(..., [])` defaults for a missing list are not modelled.
- HandleFiles.GetTreeDirectoryFromPath: the invalid-language error carries the lower-cased tag but not the message text.
  - The message text lists `Language.values()`.
- `lower()` is modelled for ASCII letters only.
- The filesystem is a value passed to the tools:
  - a `Dir` tree for the walk;
  - an `Entry` for `read_file`;
  - the `disk` map for the collection tools, from a path to what its file holds (`Stored`).
- Separators in that filesystem model:
  - The separator is '/'.
  - `os.path.relpath` is the components joined with '/'.
  - `os.path.basename` is the last '/'-separated piece.
- Symbolic links, unreadable directories and `os.walk` error handling are not modelled.
- Decoding is not modelled: a file's text is already decoded, with newlines already translated, so only '\n' ends a line.
  - For `count_lines` (a `FileEntry`), the text is the `errors='ignore'` decoding, which never fails; `None` means that opening or reading the file failed.
  - For `read_file` (an `Entry`), the text is the strict UTF-8 decoding, and `None` means it failed (UnicodeDecodeError); a file that cannot be opened or read is `UnreadableFile` (OSError).
- HandleFiles.ReadFile: the kinds of OSError (PermissionError, IsADirectoryError, other I/O errors) are not told apart; all are `OSError(path)`.
- HandlePostman.Load: the kinds of OSError are not told apart either; a collection file that cannot be opened or read is `Unreadable`, and all its errors are `OSError(path)`.
- Files.CountLines: `handle_files.py` imports `count_lines` from `src/postman_generator_mcp/utils/files.py`, which is not part of this model; the listing's count is taken to be the `count_lines` of `src/code2postman_mcp/utils/files.py`.
- HandlePostman.CollectionStore.CreateCollection: the template (`consts/postman_template`) is not part of this model.
  - The filled-in template's parse is a function parameter.
  - The method returns that parsed document rather than the template's text.
- The collection tools' file errors:
  - A path naming a directory instead of a file is treated like a missing file.
  - A failing write is not modelled.
- `json.load`/`json.dump`, `indent=2`, key order, and floating-point numbers are not modelled.
  - A JSON number is an integer.
- HandlePostman.CollectionStore.UpdateVariable: `var["value"] = new_value` changes the dict inside the loaded document.
  - The model rebuilds the variable list and stores it under "variable".
  - Aliasing between parts of a loaded document is not modelled.
- `print(template)`, the `async` wrappers and the MCP server registration in `main.py` are not modelled, since they have no effect on the results.

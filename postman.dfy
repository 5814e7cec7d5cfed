/**
 * The collection tools: each one loads a Postman collection file as JSON, edits
 * the loaded document and writes it back whole. The store of collection files
 * is a class whose one field maps a path to the document the file holds; the
 * edits themselves are functions on documents, stated and proved below.
 */
module HandlePostman {
  import opened Wrappers
  import opened Exceptions
  import opened Text
  import opened JsonValues
  import opened Files
  import opened Sequences

  /** What a collection file gives `open(file_path, "r")` and `json.load`: a file that
      cannot be opened or read (PermissionError and the other OSErrors), bytes that do
      not decode in the text encoding (UnicodeDecodeError), or text, with the document
      it parses to, or None when it is not valid JSON. */
  datatype Stored = Unreadable | Undecodable | Content(parsed: Option<Json>)

  /** The files: a path maps to what its file holds. A path outside the map names no
      file. */
  type Disk = map<string, Stored>

  /** `with open(file_path, "r") as file: json.load(file)`. */
  function Load(disk: Disk, path: string): (r: Result<Json, Error>)
    ensures r.Ok? <==> path in disk && disk[path].Content? && disk[path].parsed.Some?
    ensures r.Ok? ==> disk[path] == Content(Some(r.value))
    ensures path !in disk ==> r == Err(FileNotFound(path))
    ensures path in disk && disk[path] == Unreadable ==> r == Err(OSError(path))
    ensures path in disk && disk[path] == Undecodable ==> r == Err(UnicodeDecodeError(path))
    ensures path in disk && disk[path] == Content(None) ==> r == Err(JsonDecodeError(path))
  {
    if path !in disk then Err(FileNotFound(path))
    else match disk[path]
      case Unreadable => Err(OSError(path))
      case Undecodable => Err(UnicodeDecodeError(path))
      case Content(None) => Err(JsonDecodeError(path))
      case Content(Some(data)) => Ok(data)
  }

  // ---------------------------------------------------------------------------
  // Appending to a list under a key (items, events, variables).

  /** The list already under key, or the empty list `data[key] = []` starts. */
  function Previous(fields: map<string, Json>, key: string): seq<Json>
  {
    if key in fields && fields[key].Arr? then fields[key].elems else []
  }

  /** `if key not in data: data[key] = []` then `data[key].append(entry)`. A document
      that is not an object cannot take a key (TypeError); a value under key that is not
      a list has no `append` (AttributeError). */
  function AppendTo(data: Json, key: string, entry: Json): (r: Result<Json, Error>)
    ensures r.Ok? <==> data.Obj? && (key !in data.fields || data.fields[key].Arr?)
    ensures !data.Obj? ==> r == Err(TypeError)
    ensures data.Obj? && key in data.fields && !data.fields[key].Arr? ==> r == Err(AttributeError)
    ensures r.Ok? ==>
              r.value.Obj? && r.value.fields.Keys == data.fields.Keys + {key}
              && r.value.fields[key] == Arr(Previous(data.fields, key) + [entry])
              && forall k :: k in data.fields && k != key ==> r.value.fields[k] == data.fields[k]
  {
    if !data.Obj? then Err(TypeError)
    else if key in data.fields && !data.fields[key].Arr? then Err(AttributeError)
    else Ok(Obj(data.fields[key := Arr(Previous(data.fields, key) + [entry])]))
  }

  /** `data["info"]` made to exist (`= {}`) and then `.update(info)`: the keys of info
      replace or join those already there. */
  function MergeInfo(data: Json, info: map<string, Json>): (r: Result<Json, Error>)
    ensures r.Ok? <==> data.Obj? && ("info" !in data.fields || data.fields["info"].Obj?)
    ensures !data.Obj? ==> r == Err(TypeError)
    ensures data.Obj? && "info" in data.fields && !data.fields["info"].Obj? ==> r == Err(AttributeError)
    ensures r.Ok? ==>
              r.value.Obj? && r.value.fields.Keys == data.fields.Keys + {"info"}
              && (forall k :: k in data.fields && k != "info" ==> r.value.fields[k] == data.fields[k])
              && r.value.fields["info"].Obj?
              && var merged := r.value.fields["info"].fields;
                 (forall k :: k in info ==> k in merged && merged[k] == info[k])
                 && ("info" in data.fields ==>
                       merged.Keys == data.fields["info"].fields.Keys + info.Keys
                       && forall k :: k in data.fields["info"].fields && k !in info ==>
                            merged[k] == data.fields["info"].fields[k])
                 && ("info" !in data.fields ==> merged == info)
  {
    if !data.Obj? then Err(TypeError)
    else if "info" !in data.fields then Ok(Obj(data.fields["info" := Obj(info)]))
    else if !data.fields["info"].Obj? then Err(AttributeError)
    else Ok(Obj(data.fields["info" := Obj(data.fields["info"].fields + info)]))
  }

  /** `data[key] = value`: only an object takes a key. */
  function SetKey(data: Json, key: string, value: Json): (r: Result<Json, Error>)
    ensures r.Ok? <==> data.Obj?
    ensures !data.Obj? ==> r == Err(TypeError)
    ensures r.Ok? ==>
              r.value.Obj? && r.value.fields.Keys == data.fields.Keys + {key}
              && r.value.fields[key] == value
              && forall k :: k in data.fields && k != key ==> r.value.fields[k] == data.fields[k]
  {
    if data.Obj? then Ok(Obj(data.fields[key := value])) else Err(TypeError)
  }

  // ---------------------------------------------------------------------------
  // Deleting items by name.

  /** `[item for item in items if item.get("name") != item_name]`: every entry must
      be a dict, or `.get` fails (AttributeError). */
  function KeepUnnamed(entries: seq<Json>, name: string): Result<seq<Json>, Error>
  {
    if entries == [] then Ok([])
    else if !entries[0].Obj? then Err(AttributeError)
    else match KeepUnnamed(entries[1..], name)
      case Err(e) => Err(e)
      case Ok(rest) => Ok((if FieldIs(entries[0], "name", name) then [] else [entries[0]]) + rest)
  }

  /** The entry has no "name" equal to the given one. */
  predicate Unnamed(entry: Json, name: string)
  {
    entry.Obj? && !FieldIs(entry, "name", name)
  }

  /** One step of the filter, once the rest of the list has gone through it. */
  lemma KeepUnnamedStep(entries: seq<Json>, name: string)
    requires entries != [] && entries[0].Obj? && KeepUnnamed(entries[1..], name).Ok?
    ensures KeepUnnamed(entries, name).Ok?
    ensures FieldIs(entries[0], "name", name) ==>
              KeepUnnamed(entries, name).value == KeepUnnamed(entries[1..], name).value
    ensures !FieldIs(entries[0], "name", name) ==>
              KeepUnnamed(entries, name).value == [entries[0]] + KeepUnnamed(entries[1..], name).value
  {
    var rest := KeepUnnamed(entries[1..], name).value;
    assert [] + rest == rest;
  }

  /** The filter succeeds exactly on lists of dicts, and keeps exactly the entries not
      carrying the name, in their order. */
  lemma KeepUnnamedMeaning(entries: seq<Json>, name: string)
    ensures KeepUnnamed(entries, name).Ok? <==> forall i :: 0 <= i < |entries| ==> entries[i].Obj?
    ensures KeepUnnamed(entries, name).Err? ==> KeepUnnamed(entries, name).error == AttributeError
    ensures KeepUnnamed(entries, name).Ok? ==>
              var kept := KeepUnnamed(entries, name).value;
              Subsequence(kept, entries)
              && (forall i :: 0 <= i < |kept| ==> Unnamed(kept[i], name))
              && (forall e :: multiset(kept)[e] == if Unnamed(e, name) then multiset(entries)[e] else 0)
  {
    KeepUnnamedSucceeds(entries, name);
    if KeepUnnamed(entries, name).Ok? {
      KeepUnnamedOrder(entries, name);
      KeepUnnamedCounts(entries, name);
    }
  }

  lemma {:induction false} KeepUnnamedSucceeds(entries: seq<Json>, name: string)
    ensures KeepUnnamed(entries, name).Ok? <==> forall i :: 0 <= i < |entries| ==> entries[i].Obj?
    ensures KeepUnnamed(entries, name).Err? ==> KeepUnnamed(entries, name).error == AttributeError
  {
    if entries != [] {
      KeepUnnamedSucceeds(entries[1..], name);
      if entries[0].Obj? && KeepUnnamed(entries[1..], name).Ok? {
        KeepUnnamedStep(entries, name);
      } else if entries[0].Obj? {
        var i :| 0 <= i < |entries[1..]| && !entries[1..][i].Obj?;
        assert !entries[i + 1].Obj?;
      }
    }
  }

  lemma {:induction false} KeepUnnamedOrder(entries: seq<Json>, name: string)
    requires KeepUnnamed(entries, name).Ok?
    ensures var kept := KeepUnnamed(entries, name).value;
      Subsequence(kept, entries) && forall i :: 0 <= i < |kept| ==> Unnamed(kept[i], name)
  {
    if entries != [] {
      KeepUnnamedOrder(entries[1..], name);
      KeepUnnamedStep(entries, name);
      if !FieldIs(entries[0], "name", name) {
        var kept := KeepUnnamed(entries, name).value;
        assert kept[0] == entries[0] && kept[1..] == KeepUnnamed(entries[1..], name).value;
      }
    }
  }

  lemma {:induction false} KeepUnnamedCounts(entries: seq<Json>, name: string)
    requires KeepUnnamed(entries, name).Ok?
    ensures forall e :: multiset(KeepUnnamed(entries, name).value)[e] == if Unnamed(e, name) then multiset(entries)[e] else 0
  {
    if entries != [] {
      KeepUnnamedCounts(entries[1..], name);
      KeepUnnamedStep(entries, name);
      assert entries == [entries[0]] + entries[1..];
    }
  }

  /** An entry carrying the name, put at the end, is filtered out again. */
  lemma {:induction false} KeepUnnamedDropsNamedLast(a: seq<Json>, x: Json, name: string)
    requires KeepUnnamed(a, name).Ok? && x.Obj? && FieldIs(x, "name", name)
    ensures KeepUnnamed(a + [x], name) == KeepUnnamed(a, name)
  {
    var ax := a + [x];
    if a == [] {
      assert ax == [x] && ax[1..] == [];
      KeepUnnamedStep(ax, name);
    } else {
      assert ax[0] == a[0] && ax[1..] == a[1..] + [x];
      KeepUnnamedSucceeds(a, name);
      KeepUnnamedSucceeds(a[1..], name);
      KeepUnnamedDropsNamedLast(a[1..], x, name);
      KeepUnnamedStep(a, name);
      KeepUnnamedStep(ax, name);
    }
  }

  /** A list none of whose entries carries the name goes through the filter unchanged. */
  lemma {:induction false} KeepUnnamedOfUnnamed(entries: seq<Json>, name: string)
    requires forall i :: 0 <= i < |entries| ==> Unnamed(entries[i], name)
    ensures KeepUnnamed(entries, name) == Ok(entries)
  {
    if entries != [] {
      KeepUnnamedOfUnnamed(entries[1..], name);
      assert [entries[0]] + entries[1..] == entries;
    }
  }

  /** The document `delete_postman_collection_item` returns, written back unless it was
      returned at once because "item" is not in it. */
  function DeleteFrom(data: Json, name: string): Result<Json, Error>
  {
    match Contains(data, "item")
    case Err(e) => Err(e)
    case Ok(present) =>
      if !present then Ok(data)
      else if !data.Obj? then Err(TypeError)
      else match LoopEntries(data.fields["item"])
        case Err(e) => Err(e)
        case Ok(entries) => match KeepUnnamed(entries, name)
          case Err(e) => Err(e)
          case Ok(kept) => Ok(Obj(data.fields["item" := Arr(kept)]))
  }

  /** After a successful delete no item of an object document carries the name, the
      other items stay in their order, and nothing but "item" changes. */
  lemma DeleteRemovesNamed(data: Json, name: string)
    requires data.Obj? && "item" in data.fields && DeleteFrom(data, name).Ok?
    ensures var r := DeleteFrom(data, name).value;
      r.Obj? && r.fields.Keys == data.fields.Keys
      && (forall k :: k in data.fields && k != "item" ==> r.fields[k] == data.fields[k])
      && r.fields["item"].Arr?
      && (forall i :: 0 <= i < |r.fields["item"].elems| ==> Unnamed(r.fields["item"].elems[i], name))
      && (data.fields["item"].Arr? ==> Subsequence(r.fields["item"].elems, data.fields["item"].elems))
  {
    var entries := LoopEntries(data.fields["item"]).value;
    KeepUnnamedMeaning(entries, name);
  }

  /** Deleting twice by the same name is deleting once. */
  lemma DeleteIdempotent(data: Json, name: string)
    requires DeleteFrom(data, name).Ok?
    ensures DeleteFrom(DeleteFrom(data, name).value, name) == DeleteFrom(data, name)
  {
    var once := DeleteFrom(data, name).value;
    if data.Obj? && "item" in data.fields {
      var entries := LoopEntries(data.fields["item"]).value;
      KeepUnnamedMeaning(entries, name);
      var kept := KeepUnnamed(entries, name).value;
      KeepUnnamedOfUnnamed(kept, name);
      assert once.fields["item" := Arr(kept)] == once.fields;
    }
  }

  /** Adding an item and then deleting by its name leaves the item list the delete
      alone would leave. */
  lemma AddThenDelete(data: Json, item: map<string, Json>, name: string)
    requires data.Obj? && "item" in data.fields && data.fields["item"].Arr?
    requires forall i :: 0 <= i < |data.fields["item"].elems| ==> data.fields["item"].elems[i].Obj?
    requires FieldIs(Obj(item), "name", name)
    ensures AppendTo(data, "item", Obj(item)).Ok?
    ensures DeleteFrom(AppendTo(data, "item", Obj(item)).value, name) == DeleteFrom(data, name)
  {
    var elems := data.fields["item"].elems;
    var added := AppendTo(data, "item", Obj(item)).value;
    KeepUnnamedSucceeds(elems, name);
    KeepUnnamedDropsNamedLast(elems, Obj(item), name);
    assert KeepUnnamed(elems + [Obj(item)], name) == KeepUnnamed(elems, name);
    assert added.fields["item" := Arr(KeepUnnamed(elems, name).value)]
        == data.fields["item" := Arr(KeepUnnamed(elems, name).value)];
  }

  // ---------------------------------------------------------------------------
  // Updating a variable by key.

  /** Where the loop `for var in variables: if var.get("key") == key` stops, looking
      from index i on: at the first dict whose "key" is the given one, at an entry that
      is not a dict (AttributeError), or at the end (None). */
  function FirstKeyedFrom(vars: seq<Json>, key: string, i: nat): (r: Result<Option<nat>, Error>)
    requires i <= |vars|
    ensures r.Err? ==> r.error == AttributeError
    ensures r.Ok? && r.value.Some? ==>
              i <= r.value.value < |vars| && vars[r.value.value].Obj? && FieldIs(vars[r.value.value], "key", key)
    ensures r.Ok? ==>
              forall j :: i <= j < (if r.value.Some? then r.value.value else |vars|) ==>
                vars[j].Obj? && !FieldIs(vars[j], "key", key)
    ensures r.Err? ==>
              exists m :: i <= m < |vars| && !vars[m].Obj?
                && forall j :: i <= j < m ==> vars[j].Obj? && !FieldIs(vars[j], "key", key)
    decreases |vars| - i
  {
    if i == |vars| then Ok(None)
    else if !vars[i].Obj? then Err(AttributeError)
    else if FieldIs(vars[i], "key", key) then Ok(Some(i))
    else FirstKeyedFrom(vars, key, i + 1)
  }

  function FirstKeyed(vars: seq<Json>, key: string): Result<Option<nat>, Error>
  {
    FirstKeyedFrom(vars, key, 0)
  }

  /** `var["value"] = new_value` on the entry at index m. */
  function SetValueAt(vars: seq<Json>, m: nat, newValue: string): seq<Json>
    requires m < |vars| && vars[m].Obj?
  {
    vars[m := Obj(vars[m].fields["value" := Str(newValue)])]
  }

  /** The loop of `update_postman_collection_variable` over the variable list: the
      first dict whose "key" is the given one gets the new "value", and the loop stops
      there. */
  method SetFirstValue(vars: seq<Json>, key: string, newValue: string) returns (r: Result<seq<Json>, Error>)
    ensures FirstKeyed(vars, key).Err? ==> r == Err(AttributeError)
    ensures FirstKeyed(vars, key) == Ok(None) ==> r == Ok(vars)
    ensures FirstKeyed(vars, key).Ok? && FirstKeyed(vars, key).value.Some? ==>
              r == Ok(SetValueAt(vars, FirstKeyed(vars, key).value.value, newValue))
  {
    var i := 0;
    while i < |vars|
      invariant 0 <= i <= |vars|
      invariant FirstKeyedFrom(vars, key, i) == FirstKeyed(vars, key)
    {
      var entry := vars[i];
      if !entry.Obj? {
        return Err(AttributeError);
      }
      if "key" in entry.fields && entry.fields["key"] == Str(key) {
        return Ok(vars[i := Obj(entry.fields["value" := Str(newValue)])]);
      }
      i := i + 1;
    }
    return Ok(vars);
  }

  /** The document `update_postman_collection_variable` returns. */
  function UpdateIn(data: Json, key: string, newValue: string): Result<Json, Error>
  {
    match Contains(data, "variable")
    case Err(e) => Err(e)
    case Ok(present) =>
      if !present then Ok(data)
      else if !data.Obj? then Err(TypeError)
      else match LoopEntries(data.fields["variable"])
        case Err(e) => Err(e)
        case Ok(vars) => match FirstKeyed(vars, key)
          case Err(e) => Err(e)
          case Ok(None) => Ok(data)
          case Ok(Some(m)) => Ok(Obj(data.fields["variable" := Arr(SetValueAt(vars, m, newValue))]))
  }

  /** After the update the same entry is still the first with that key, and it holds
      the new value. */
  lemma UpdateHitsSameEntry(vars: seq<Json>, key: string, newValue: string)
    requires FirstKeyed(vars, key).Ok? && FirstKeyed(vars, key).value.Some?
    ensures var m := FirstKeyed(vars, key).value.value;
      var updated := SetValueAt(vars, m, newValue);
      FirstKeyed(updated, key) == Ok(Some(m))
      && |updated| == |vars|
      && updated[m].fields["value"] == Str(newValue)
      && SetValueAt(updated, m, newValue) == updated
      && forall j :: 0 <= j < |vars| && j != m ==> updated[j] == vars[j]
  {
    var m := FirstKeyed(vars, key).value.value;
    var updated := SetValueAt(vars, m, newValue);
    FirstKeyedAgrees(vars, updated, key, m, 0);
    assert updated[m].fields["value" := Str(newValue)] == updated[m].fields;
  }

  /** Two lists that agree before m and both have a dict with the key at m stop the
      loop at m. */
  lemma {:induction false} FirstKeyedAgrees(a: seq<Json>, b: seq<Json>, key: string, m: nat, i: nat)
    requires i <= m < |a| == |b|
    requires forall j :: i <= j < m ==> a[j] == b[j]
    requires FirstKeyedFrom(a, key, i) == Ok(Some(m))
    requires b[m].Obj? && FieldIs(b[m], "key", key)
    ensures FirstKeyedFrom(b, key, i) == Ok(Some(m))
    decreases m - i
  {
    if i < m {
      assert a[i] == b[i];
      FirstKeyedAgrees(a, b, key, m, i + 1);
    }
  }

  /** Updating twice with the same key and value is updating once. */
  lemma UpdateIdempotent(data: Json, key: string, newValue: string)
    requires UpdateIn(data, key, newValue).Ok?
    ensures UpdateIn(UpdateIn(data, key, newValue).value, key, newValue) == UpdateIn(data, key, newValue)
  {
    if data.Obj? && "variable" in data.fields {
      var vars := LoopEntries(data.fields["variable"]).value;
      if FirstKeyed(vars, key).value.Some? {
        var m := FirstKeyed(vars, key).value.value;
        var once := UpdateIn(data, key, newValue).value;
        UpdateHitsSameEntry(vars, key, newValue);
        assert once.fields["variable"] == Arr(SetValueAt(vars, m, newValue));
        assert once.fields["variable" := Arr(SetValueAt(vars, m, newValue))] == once.fields;
      }
    }
  }

  // ---------------------------------------------------------------------------
  // The store of collection files.

  class CollectionStore {
    var disk: Disk

    constructor(files: Disk)
      ensures disk == files
    {
      disk := files;
    }

    /** `json.dump(data, file)` to path: the file now holds data. */
    method Write(path: string, data: Json)
      modifies this
      ensures disk == old(disk)[path := Content(Some(data))]
      ensures Load(disk, path) == Ok(data)
    {
      disk := disk[path := Content(Some(data))];
    }

    /** `create_postman_collection`: the template, filled in with the name and the
        description, is written to path, which must end in ".json". `template` gives the
        document the filled-in text denotes, or None when that text is not valid JSON. */
    method CreateCollection(path: string, name: string, description: string, template: (string, string) -> Option<Json>)
      returns (r: Result<Option<Json>, Error>)
      modifies this
      ensures !EndsWith(path, ".json") ==> r == Err(ValueError(path + " is not a JSON file")) && disk == old(disk)
      ensures EndsWith(path, ".json") ==>
                r == Ok(template(name, description)) && disk == old(disk)[path := Content(template(name, description))]
      ensures EndsWith(path, ".json") && template(name, description).Some? ==>
                Load(disk, path) == Ok(template(name, description).value)
    {
      if !EndsWith(path, ".json") {
        return Err(ValueError(path + " is not a JSON file"));
      }
      var document := template(name, description);
      disk := disk[path := Content(document)];
      r := Ok(document);
    }

    /** `read_postman_collection`: the suffix is checked first, then that the file
        exists, then its content is loaded. */
    method ReadCollection(path: string) returns (r: Result<Json, Error>)
      ensures !EndsWith(path, ".json") ==> r == Err(ValueError(path + " is not a JSON file"))
      ensures EndsWith(path, ".json") && path !in disk ==> r == Err(FileNotFound(path))
      ensures EndsWith(path, ".json") && path in disk ==>
                (disk[path] == Unreadable ==> r == Err(OSError(path)))
                && (disk[path] == Undecodable ==> r == Err(UnicodeDecodeError(path)))
                && (disk[path] == Content(None) ==> r == Err(JsonDecodeError(path)))
                && (disk[path].Content? && disk[path].parsed.Some? ==> r == Ok(disk[path].parsed.value))
    {
      if !EndsWith(path, ".json") {
        return Err(ValueError(path + " is not a JSON file"));
      }
      if path !in disk {
        return Err(FileNotFound(path));
      }
      r := Load(disk, path);
    }

    /** `add_postman_collection_item`: the file is loaded before the item is checked. */
    method AddItem(path: string, item: map<string, Json>) returns (r: Result<Json, Error>)
      modifies this
      ensures Load(old(disk), path).Err? ==> r == Load(old(disk), path) && disk == old(disk)
      ensures Load(old(disk), path).Ok? && !IsValidItem(item) ==>
                r == Err(ValueError("Invalid item")) && disk == old(disk)
      ensures Load(old(disk), path).Ok? && IsValidItem(item) ==>
                r == AppendTo(Load(old(disk), path).value, "item", Obj(item))
      ensures r.Ok? ==> disk == old(disk)[path := Content(Some(r.value))]
      ensures r.Err? ==> disk == old(disk)
    {
      var loaded := Load(disk, path);
      if loaded.Err? {
        return loaded;
      }
      if !IsValidItem(item) {
        return Err(ValueError("Invalid item"));
      }
      r := AppendTo(loaded.value, "item", Obj(item));
      if r.Ok? {
        Write(path, r.value);
      }
    }

    /** `add_postman_collection_info`. */
    method AddInfo(path: string, info: map<string, Json>) returns (r: Result<Json, Error>)
      modifies this
      ensures Load(old(disk), path).Err? ==> r == Load(old(disk), path)
      ensures Load(old(disk), path).Ok? ==> r == MergeInfo(Load(old(disk), path).value, info)
      ensures r.Ok? ==> disk == old(disk)[path := Content(Some(r.value))]
      ensures r.Err? ==> disk == old(disk)
    {
      var loaded := Load(disk, path);
      if loaded.Err? {
        return loaded;
      }
      r := MergeInfo(loaded.value, info);
      if r.Ok? {
        Write(path, r.value);
      }
    }

    /** `add_postman_collection_event`. */
    method AddEvent(path: string, event: map<string, Json>) returns (r: Result<Json, Error>)
      modifies this
      ensures Load(old(disk), path).Err? ==> r == Load(old(disk), path)
      ensures Load(old(disk), path).Ok? ==> r == AppendTo(Load(old(disk), path).value, "event", Obj(event))
      ensures r.Ok? ==> disk == old(disk)[path := Content(Some(r.value))]
      ensures r.Err? ==> disk == old(disk)
    {
      var loaded := Load(disk, path);
      if loaded.Err? {
        return loaded;
      }
      r := AppendTo(loaded.value, "event", Obj(event));
      if r.Ok? {
        Write(path, r.value);
      }
    }

    /** `add_postman_collection_variable`. */
    method AddVariable(path: string, variable: map<string, Json>) returns (r: Result<Json, Error>)
      modifies this
      ensures Load(old(disk), path).Err? ==> r == Load(old(disk), path)
      ensures Load(old(disk), path).Ok? ==> r == AppendTo(Load(old(disk), path).value, "variable", Obj(variable))
      ensures r.Ok? ==> disk == old(disk)[path := Content(Some(r.value))]
      ensures r.Err? ==> disk == old(disk)
    {
      var loaded := Load(disk, path);
      if loaded.Err? {
        return loaded;
      }
      r := AppendTo(loaded.value, "variable", Obj(variable));
      if r.Ok? {
        Write(path, r.value);
      }
    }

    /** `add_postman_collection_auth`: "auth" is set, whatever it held. */
    method AddAuth(path: string, auth: map<string, Json>) returns (r: Result<Json, Error>)
      modifies this
      ensures Load(old(disk), path).Err? ==> r == Load(old(disk), path)
      ensures Load(old(disk), path).Ok? ==> r == SetKey(Load(old(disk), path).value, "auth", Obj(auth))
      ensures r.Ok? ==> disk == old(disk)[path := Content(Some(r.value))]
      ensures r.Err? ==> disk == old(disk)
    {
      var loaded := Load(disk, path);
      if loaded.Err? {
        return loaded;
      }
      r := SetKey(loaded.value, "auth", Obj(auth));
      if r.Ok? {
        Write(path, r.value);
      }
    }

    /** `add_postman_collection_protocol_behavior`: "protocolProfileBehavior" is set,
        whatever it held. */
    method AddProtocolBehavior(path: string, behavior: map<string, Json>) returns (r: Result<Json, Error>)
      modifies this
      ensures Load(old(disk), path).Err? ==> r == Load(old(disk), path)
      ensures Load(old(disk), path).Ok? ==>
                r == SetKey(Load(old(disk), path).value, "protocolProfileBehavior", Obj(behavior))
      ensures r.Ok? ==> disk == old(disk)[path := Content(Some(r.value))]
      ensures r.Err? ==> disk == old(disk)
    {
      var loaded := Load(disk, path);
      if loaded.Err? {
        return loaded;
      }
      r := SetKey(loaded.value, "protocolProfileBehavior", Obj(behavior));
      if r.Ok? {
        Write(path, r.value);
      }
    }

    /** `delete_postman_collection_item`: a document without "item" is returned as it
        is and not written; otherwise the filtered list replaces the old one. */
    method DeleteItem(path: string, itemName: string) returns (r: Result<Json, Error>)
      modifies this
      ensures Load(old(disk), path).Err? ==> r == Load(old(disk), path)
      ensures Load(old(disk), path).Ok? ==> r == DeleteFrom(Load(old(disk), path).value, itemName)
      ensures Load(old(disk), path).Ok? && Contains(Load(old(disk), path).value, "item") == Ok(false) ==>
                disk == old(disk)
      ensures r.Ok? ==> disk == old(disk)[path := Content(Some(r.value))]
      ensures r.Err? ==> disk == old(disk)
    {
      var loaded := Load(disk, path);
      if loaded.Err? {
        return loaded;
      }
      var data := loaded.value;
      var present := Contains(data, "item");
      if present.Err? {
        return Err(present.error);
      }
      if !present.value {
        assert disk[path := Content(Some(data))] == disk;
        return Ok(data);
      }
      if !data.Obj? {
        return Err(TypeError);
      }
      var entries := LoopEntries(data.fields["item"]);
      if entries.Err? {
        return Err(entries.error);
      }
      var kept := KeepUnnamed(entries.value, itemName);
      if kept.Err? {
        return Err(kept.error);
      }
      data := Obj(data.fields["item" := Arr(kept.value)]);
      Write(path, data);
      r := Ok(data);
    }

    /** `update_postman_collection_variable`: a document without "variable" is returned
        as it is and not written; otherwise the first variable with the key gets the new
        value and the document is written back, changed or not. */
    method UpdateVariable(path: string, key: string, newValue: string) returns (r: Result<Json, Error>)
      modifies this
      ensures Load(old(disk), path).Err? ==> r == Load(old(disk), path)
      ensures Load(old(disk), path).Ok? ==> r == UpdateIn(Load(old(disk), path).value, key, newValue)
      ensures Load(old(disk), path).Ok? && Contains(Load(old(disk), path).value, "variable") == Ok(false) ==>
                disk == old(disk)
      ensures r.Ok? ==> disk == old(disk)[path := Content(Some(r.value))]
      ensures r.Err? ==> disk == old(disk)
    {
      var loaded := Load(disk, path);
      if loaded.Err? {
        return loaded;
      }
      var data := loaded.value;
      var present := Contains(data, "variable");
      if present.Err? {
        return Err(present.error);
      }
      if !present.value {
        assert disk[path := Content(Some(data))] == disk;
        return Ok(data);
      }
      if !data.Obj? {
        return Err(TypeError);
      }
      var entries := LoopEntries(data.fields["variable"]);
      if entries.Err? {
        return Err(entries.error);
      }
      var updated := SetFirstValue(entries.value, key, newValue);
      if updated.Err? {
        return Err(updated.error);
      }
      if data.fields["variable"].Arr? {
        assert FirstKeyed(entries.value, key) == Ok(None) ==> data.fields["variable" := Arr(updated.value)] == data.fields;
        data := Obj(data.fields["variable" := Arr(updated.value)]);
      }
      Write(path, data);
      r := Ok(data);
    }
  }
}

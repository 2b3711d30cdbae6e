/**
 * The application settings of config.py: nested string-keyed dictionaries,
 * the recursive merge of a user's settings over the defaults, and the
 * dot-separated `get`/`set`. Reading and writing config.json and creating
 * directories are left out; the parsed file is a constructor parameter.
 */
module Configuration {
  import opened Wrappers
  import opened Text

  /** A JSON value as `json.load` returns it. */
  datatype Json =
    | Text(s: string)
    | Int(n: int)
    | Bool(b: bool)
    | Null
    | List(items: seq<Json>)
    | Obj(fields: map<string, Json>)

  /** `Config._DEFAULT_CONFIG` */
  const DefaultConfig: map<string, Json> := map[
    "app" := Obj(map[
      "name" := Text("Fabric Roll Management System"), "version" := Text("1.0.0"),
      "organization" := Text("Your Company"), "data_dir" := Text("data"), "log_dir" := Text("logs")]),
    "database" := Obj(map[
      "file" := Text("fabric_rolls.db"), "backup_dir" := Text("backups"), "backup_count" := Int(5)]),
    "api" := Obj(map[
      "host" := Text("0.0.0.0"), "port" := Int(5000), "debug" := Bool(false),
      "secret_key" := Text("your-secret-key-here")]),
    "scanning" := Obj(map["auto_scan_interval" := Int(5), "default_scanner" := Text("builtin")]),
    "printing" := Obj(map[
      "default_printer" := Text(""), "paper_size" := Text("A4"), "orientation" := Text("portrait"),
      "margin_top" := Int(10), "margin_bottom" := Int(10), "margin_left" := Int(10), "margin_right" := Int(10)]),
    "ui" := Obj(map[
      "theme" := Text("light"), "font_family" := Text("Arial"), "font_size" := Int(10),
      "table_rows_per_page" := Int(50)]),
    "labels" := Obj(map[
      "template" := Text("default"), "show_qr_code" := Bool(true), "show_barcode" := Bool(true),
      "qr_code_size" := Int(40), "barcode_height" := Int(15), "include_company_logo" := Bool(false),
      "logo_path" := Text("")])]

  // ---------------------------------------------------------------------------
  // _merge_configs

  /**
   * `_merge_configs(default, custom)`: a copy of `default` in which every
   * key of `custom` takes custom's value, except that two dictionaries
   * under the same key are merged recursively. Neither input is changed
   * (they are values here).
   */
  function Merge(default: map<string, Json>, custom: map<string, Json>): map<string, Json>
    decreases Obj(custom)
  {
    map k | k in default.Keys + custom.Keys ::
      if k in custom then
        (if k in default && default[k].Obj? && custom[k].Obj? then Obj(Merge(default[k].fields, custom[k].fields))
         else custom[k])
      else default[k]
  }

  /** The merged keys are those of both inputs; custom's value wins unless both are dictionaries; default-only keys keep their value. */
  lemma MergeEntries(default: map<string, Json>, custom: map<string, Json>, k: string)
    ensures k in Merge(default, custom) <==> k in default || k in custom
    ensures k in custom && !(k in default && default[k].Obj? && custom[k].Obj?) ==> Merge(default, custom)[k] == custom[k]
    ensures k in custom && k in default && default[k].Obj? && custom[k].Obj? ==>
      Merge(default, custom)[k] == Obj(Merge(default[k].fields, custom[k].fields))
    ensures k !in custom && k in default ==> Merge(default, custom)[k] == default[k]
  {
  }

  /** Merging no custom settings gives the defaults; merging into no defaults gives the custom settings. */
  lemma MergeEmpty(m: map<string, Json>)
    ensures Merge(m, map[]) == m
    ensures Merge(map[], m) == m
  {
  }

  /** Merging settings over themselves changes nothing. */
  lemma {:induction false} MergeSelf(m: map<string, Json>)
    ensures Merge(m, m) == m
    decreases Obj(m)
  {
    forall k | k in m && m[k].Obj?
      ensures Merge(m[k].fields, m[k].fields) == m[k].fields
    {
      MergeSelf(m[k].fields);
    }
  }

  // ---------------------------------------------------------------------------
  // get and set

  /** Following `path` from `v`; None where a key is missing or a non-dictionary is reached (KeyError/TypeError). */
  function Walk(v: Json, path: seq<string>): Option<Json>
    decreases |path|
  {
    if path == [] then Some(v)
    else if v.Obj? && path[0] in v.fields then Walk(v.fields[path[0]], path[1..])
    else None
  }

  /** The value `get(key, default)` returns. */
  function GetValue(config: map<string, Json>, key: string, default: Json): Json {
    match Walk(Obj(config), Split(key, '.'))
    case Some(v) => v
    case None => default
  }

  /** Whether `custom` defines neither `path` nor a non-dictionary on the way to it. */
  predicate Absent(custom: map<string, Json>, path: seq<string>)
    decreases |path|
  {
    path != [] &&
    (path[0] !in custom || (custom[path[0]].Obj? && Absent(custom[path[0]].fields, path[1..])))
  }

  /** A setting the custom file gives as a non-dictionary is what the merged settings hold. */
  lemma {:induction false} CustomOverrides(default: map<string, Json>, custom: map<string, Json>, path: seq<string>, v: Json)
    requires Walk(Obj(custom), path) == Some(v) && !v.Obj?
    ensures Walk(Obj(Merge(default, custom)), path) == Some(v)
    decreases |path|
  {
    var k := path[0];
    var rest := path[1..];
    if rest != [] {
      if k in default && default[k].Obj? && custom[k].Obj? {
        CustomOverrides(default[k].fields, custom[k].fields, rest, v);
      }
    }
  }

  /** A default setting survives the merge when the custom file does not override it or a dictionary above it. */
  lemma {:induction false} DefaultsSurvive(default: map<string, Json>, custom: map<string, Json>, path: seq<string>, v: Json)
    requires Walk(Obj(default), path) == Some(v)
    requires Absent(custom, path)
    ensures Walk(Obj(Merge(default, custom)), path) == Some(v)
    decreases |path|
  {
    var k := path[0];
    if k in custom {
      DefaultsSurvive(default[k].fields, custom[k].fields, path[1..], v);
    }
  }

  /**
   * `set(key, value)` on the path `keys`: every dictionary on the way is
   * kept, a missing or non-dictionary step is replaced by an empty
   * dictionary, and the last key is bound to `value`.
   */
  function SetPath(m: map<string, Json>, keys: seq<string>, value: Json): map<string, Json>
    requires keys != []
    decreases |keys|
  {
    if |keys| == 1 then m[keys[0] := value]
    else
      var child := if keys[0] in m && m[keys[0]].Obj? then m[keys[0]].fields else map[];
      m[keys[0] := Obj(SetPath(child, keys[1..], value))]
  }

  /** After a set, getting the same path gives the value just set, and every step on the path is a dictionary. */
  lemma {:induction false} GetAfterSet(m: map<string, Json>, keys: seq<string>, value: Json)
    requires keys != []
    ensures Walk(Obj(SetPath(m, keys, value)), keys) == Some(value)
    ensures forall i :: 0 <= i < |keys| ==>
      (Walk(Obj(SetPath(m, keys, value)), keys[..i]).Some? && Walk(Obj(SetPath(m, keys, value)), keys[..i]).value.Obj?)
    decreases |keys|
  {
    var r := SetPath(m, keys, value);
    if |keys| > 1 {
      var child := if keys[0] in m && m[keys[0]].Obj? then m[keys[0]].fields else map[];
      GetAfterSet(child, keys[1..], value);
      forall i | 0 < i < |keys|
        ensures Walk(Obj(r), keys[..i]).Some? && Walk(Obj(r), keys[..i]).value.Obj?
      {
        assert keys[..i][1..] == keys[1..][..i - 1];
      }
    }
  }

  /** `set(key, value)` followed by `get(key, default)` gives the value set. */
  lemma SetThenGet(m: map<string, Json>, key: string, value: Json, default: Json)
    ensures GetValue(SetPath(m, Split(key, '.'), value), key, default) == value
  {
    GetAfterSet(m, Split(key, '.'), value);
  }

  /** Whether `path` leaves `keys` at some step (a different key at the same depth). */
  predicate Diverges(keys: seq<string>, path: seq<string>)
    decreases |path|
  {
    keys != [] && path != [] && (path[0] != keys[0] || Diverges(keys[1..], path[1..]))
  }

  /** A set changes nothing off its path: any path that leaves it reads what it read before. */
  lemma {:induction false} SetKeepsOthers(m: map<string, Json>, keys: seq<string>, value: Json, path: seq<string>)
    requires keys != [] && Diverges(keys, path)
    ensures Walk(Obj(SetPath(m, keys, value)), path) == Walk(Obj(m), path)
    decreases |path|
  {
    if path[0] == keys[0] {
      var child := if keys[0] in m && m[keys[0]].Obj? then m[keys[0]].fields else map[];
      SetKeepsOthers(child, keys[1..], value, path[1..]);
      if !(keys[0] in m && m[keys[0]].Obj?) {
        assert path[1..] != [];
        assert Walk(Obj(map[]), path[1..]) == None;
      }
    }
  }

  // ---------------------------------------------------------------------------
  // The Config object

  class Config {
    var config: map<string, Json>

    /**
     * `Config(...)`: `loaded` is what `json.load` read from the settings
     * file, None when there is no file or it cannot be read. Settings that
     * are not a dictionary make the merge fail, which falls back to the
     * defaults as well.
     */
    constructor(loaded: Option<Json>)
      ensures config == if loaded.Some? && loaded.value.Obj? then Merge(DefaultConfig, loaded.value.fields) else DefaultConfig
    {
      if loaded.Some? && loaded.value.Obj? {
        config := Merge(DefaultConfig, loaded.value.fields);
      } else {
        config := DefaultConfig;
      }
    }

    /** `get(key, default)`: one step per dot-separated key. */
    method Get(key: string, default: Json) returns (v: Json)
      ensures v == GetValue(config, key, default)
    {
      var keys := Split(key, '.');
      var value := Obj(config);
      var i := 0;
      while i < |keys|
        invariant 0 <= i <= |keys|
        invariant Walk(Obj(config), keys) == Walk(value, keys[i..])
      {
        if value.Obj? && keys[i] in value.fields {
          assert keys[i..][1..] == keys[i + 1..];
          value := value.fields[keys[i]];
        } else {
          return default;
        }
        i := i + 1;
      }
      assert keys[i..] == [];
      v := value;
    }

    /** `set(key, value)` */
    method Set(key: string, value: Json)
      modifies this
      ensures config == SetPath(old(config), Split(key, '.'), value)
    {
      config := SetPath(config, Split(key, '.'), value);
    }
  }
}

/**
 * The text emitters of pv2/mock/config.py: `MockConfigUtils` (value
 * rendering, plugin enable lines, option lines) and the plugin, chroot-file
 * and macro classes whose `gen_config` produce one piece of a mock
 * configuration. JSON encoding is a parameter `json`.
 */
module MockConfigUtils {
  import opened Wrappers
  import opened Text
  import opened Errors
  import opened PyValue
  import opened Sorting

  /** `str(type(v))`. */
  function TypeText(v: Value): string
  {
    "<class '" + TypeName(v) + "'>"
  }

  /**
   * `config_string`: None, bool, int and tuple through `str()`, str and
   * list through JSON; any other value raises ProvidedValueError.
   */
  function ConfigString(value: Value, json: Value -> string): (r: Result<string, Error>)
    ensures r.Failure? <==> value.PyDict? || value.PyObject?
    ensures r.Failure? ==> r.error.kind == ProvidedValueError
  {
    match value
    case PyNone => Success(Str(value))
    case PyBool(_) => Success(Str(value))
    case PyInt(_) => Success(Str(value))
    case PyTuple(_) => Success(Str(value))
    case PyStr(_) => Success(json(value))
    case PyList(_) => Success(json(value))
    case _ => Failure(Error(ProvidedValueError, TypeText(value) + ": " + Str(value) + " is not supported."))
  }

  /** A boolean is written the Python way, `True` or `False`, whatever the JSON encoder does. */
  lemma ConfigStringOfBool(b: bool, json: Value -> string)
    ensures ConfigString(PyBool(b), json) == Success(if b then "True" else "False")
  {
  }

  /** Strings and lists are handed to the JSON encoder; None, ints and tuples are not. */
  lemma ConfigStringUsesJson(value: Value, json: Value -> string)
    ensures value.PyStr? || value.PyList? ==> ConfigString(value, json) == Success(json(value))
    ensures value.PyNone? || value.PyInt? || value.PyTuple? ==> ConfigString(value, json) == Success(Repr(value))
  {
  }

  const PluginConf := "config_opts[\"plugin_conf\"][\""

  /** `config_opts["plugin_conf"]["<name>_enable"] = <status>\n`. */
  function EnableLine(name: string, status: string): string
  {
    PluginConf + name + "_enable\"] = " + status + "\n"
  }

  /** `gen_config_string`: the enable line of a plugin, its status rendered by `config_string`. */
  function GenConfigString(name: string, status: Value, json: Value -> string): (r: Result<string, Error>)
    ensures r.Failure? <==> status.PyDict? || status.PyObject?
  {
    var s :- ConfigString(status, json);
    Success(EnableLine(name, s))
  }

  /** For a boolean status the enable line is exactly `...["<name>_enable"] = True` or `= False`. */
  lemma EnableLineOfBool(name: string, b: bool, json: Value -> string)
    ensures GenConfigString(name, PyBool(b), json)
         == Success(PluginConf + name + "_enable\"] = " + (if b then "True" else "False") + "\n")
  {
  }

  /** The enable line ends with its only line break when name and status hold none. */
  lemma EnableLineIsOneLine(name: string, status: string)
    requires '\n' !in name && '\n' !in status
    ensures var l := EnableLine(name, status);
            l[|l| - 1] == '\n' && '\n' !in l[..|l| - 1]
  {
    var l := EnableLine(name, status);
    assert l[..|l| - 1] == PluginConf + name + "_enable\"] = " + status;
  }

  /** `config_opts["plugin_conf"]["<name>_opts"]`, the target of a plugin's option lines. */
  function OptsTarget(name: string): string
  {
    PluginConf + name + "_opts\"]"
  }

  /** `config_opts["plugin_conf"]["<name>_opts"] = {}\n`. */
  function OptsHeader(name: string): string
  {
    OptsTarget(name) + " = {}\n"
  }

  /** `<target>[<key>] = <value>\n`, the line shape every option loop emits. */
  function PairLine(target: string, key: string, value: string): string
  {
    target + "[" + key + "] = " + value + "\n"
  }

  /**
   * `key, option = k` for a string `k`: a string unpacks into its
   * characters, so only a two-character string gives two values.
   */
  function Unpack(k: string): (r: Result<(Value, Value), Error>)
    ensures r.Success? <==> |k| == 2
    ensures r.Failure? ==> r.error.kind == PyValueError
  {
    if |k| == 2 then Success((PyStr([k[0]]), PyStr([k[1]])))
    else if |k| > 2 then Failure(Error(PyValueError, "too many values to unpack (expected 2)"))
    else Failure(Error(PyValueError, "not enough values to unpack (expected 2, got " + NatToString(|k|) + ")"))
  }

  /** `r` with `prefix` put in front of its text; a failure is kept as it is. */
  function Prefixed(prefix: string, r: Result<string, Error>): Result<string, Error>
  {
    match r
    case Success(text) => Success(prefix + text)
    case Failure(e) => Failure(e)
  }

  lemma PrefixedTwice(a: string, b: string, r: Result<string, Error>)
    ensures Prefixed(a, Prefixed(b, r)) == Prefixed(a + b, r)
  {
    if r.Success? {
      assert a + (b + r.value) == (a + b) + r.value;
    }
  }

  lemma PrefixedEmpty(r: Result<string, Error>)
    ensures Prefixed("", r) == r
  {
    if r.Success? {
      assert "" + r.value == r.value;
    }
  }

  /**
   * The option lines of `gen_config_string_with_opts` for the sorted option
   * names `keys`: each name is unpacked into a key and a value, the first
   * name that does not unpack raising.
   */
  function OptLines(name: string, keys: seq<string>, json: Value -> string): (r: Result<string, Error>)
  {
    if keys == [] then Success("")
    else
      var kv :- Unpack(keys[0]);
      var k :- ConfigString(kv.0, json);
      var v :- ConfigString(kv.1, json);
      Prefixed(PairLine(OptsTarget(name), k, v), OptLines(name, keys[1..], json))
  }

  /** The option lines are produced exactly when every option name has two characters. */
  lemma {:induction false} OptLinesSucceedIff(name: string, keys: seq<string>, json: Value -> string)
    ensures OptLines(name, keys, json).Success? <==> forall k :: k in keys ==> |k| == 2
  {
    if keys != [] {
      var rest := keys[1..];
      OptLinesSucceedIff(name, rest, json);
      OptLinesStep(name, keys, json);
      if OptLines(name, keys, json).Success? {
        forall k | k in keys ensures |k| == 2
        {
          if k != keys[0] {
            var i :| 0 <= i < |keys| && keys[i] == k;
            assert rest[i - 1] == k;
          }
        }
      } else if |keys[0]| == 2 {
        var k :| k in rest && |k| != 2;
        var i :| 0 <= i < |rest| && rest[i] == k;
        assert keys[i + 1] == k;
      }
    }
  }

  lemma OptLinesStep(name: string, keys: seq<string>, json: Value -> string)
    requires keys != []
    ensures OptLines(name, keys, json).Success? <==> |keys[0]| == 2 && OptLines(name, keys[1..], json).Success?
  {
  }

  /** `gen_config_string_with_opts` as a value: the enable line, then for an enabled plugin the option block. */
  function WithOpts(name: string, status: Value, opts: seq<Item>, json: Value -> string): (r: Result<string, Error>)
  {
    var s :- ConfigString(status, json);
    if !Truthy(status) then Success(EnableLine(name, s))
    else Prefixed(EnableLine(name, s) + OptsHeader(name), OptLines(name, KeysOf(SortByKey(opts)), json))
  }

  /** `gen_config_string_with_opts`, accumulating the output line by line over the sorted option names. */
  method GenConfigStringWithOpts(name: string, status: Value, opts: seq<Item>, json: Value -> string)
    returns (r: Result<string, Error>)
    ensures r == WithOpts(name, status, opts, json)
  {
    var s := ConfigString(status, json);
    if s.Failure? {
      return Failure(s.error);
    }
    var output := EnableLine(name, s.value);
    if !Truthy(status) {
      return Success(output);
    }
    output := output + OptsHeader(name);
    var keys := KeysOf(SortByKey(opts));
    ghost var whole := WithOpts(name, status, opts, json);
    var i := 0;
    while i < |keys|
      invariant 0 <= i <= |keys|
      invariant Prefixed(output, OptLines(name, keys[i..], json)) == whole
    {
      var kv := Unpack(keys[i]);
      if kv.Failure? {
        return Failure(kv.error);
      }
      var k := ConfigString(kv.value.0, json);
      var v := ConfigString(kv.value.1, json);
      var line := PairLine(OptsTarget(name), k.value, v.value);
      assert keys[i..][1..] == keys[i + 1..];
      PrefixedTwice(output, line, OptLines(name, keys[i + 1..], json));
      output := output + line;
      i := i + 1;
    }
    assert OptLines(name, keys[i..], json) == Success("");
    assert output + "" == output;
    r := Success(output);
  }

  /** A disabled plugin gets its enable line and nothing else. */
  lemma DisabledPluginIsOneLine(name: string, status: Value, opts: seq<Item>, json: Value -> string)
    requires !Truthy(status) && !status.PyDict? && !status.PyObject?
    ensures WithOpts(name, status, opts, json) == GenConfigString(name, status, json)
  {
  }

  /** An enabled plugin without options gets its enable line and an empty option dictionary. */
  lemma EnabledPluginWithoutOpts(name: string, status: Value, json: Value -> string)
    requires Truthy(status) && !status.PyDict? && !status.PyObject?
    ensures WithOpts(name, status, [], json) == Success(GenConfigString(name, status, json).value + OptsHeader(name))
  {
    assert OptLines(name, KeysOf(SortByKey([])), json) == Success("");
    var line := GenConfigString(name, status, json).value + OptsHeader(name);
    assert line + "" == line;
  }

  /**
   * The option loop iterates the option names, not the items: an enabled
   * plugin with options succeeds only when every option name has exactly
   * two characters.
   */
  lemma EnabledPluginOptsNeedTwoCharNames(name: string, status: Value, opts: seq<Item>, json: Value -> string)
    requires Truthy(status) && !status.PyDict? && !status.PyObject?
    ensures WithOpts(name, status, opts, json).Success? <==> forall o :: o in opts ==> |o.0| == 2
  {
    var sorted := SortByKey(opts);
    var keys := KeysOf(sorted);
    OptLinesSucceedIff(name, keys, json);
    if forall o :: o in opts ==> |o.0| == 2 {
      forall k | k in keys ensures |k| == 2
      {
        var i :| 0 <= i < |keys| && keys[i] == k;
        assert sorted[i] in opts;
      }
    }
    if forall k :: k in keys ==> |k| == 2 {
      forall o | o in opts ensures |o.0| == 2
      {
        var i :| 0 <= i < |sorted| && sorted[i] == o;
        assert keys[i] in keys;
      }
    }
  }

  /** The lines `<target>[<key>] = <value>\n`, one per item, in the order given. */
  function ItemLines(target: string, items: seq<(Value, Value)>, json: Value -> string): (r: Result<string, Error>)
  {
    if items == [] then Success("")
    else
      var k :- ConfigString(items[0].0, json);
      var v :- ConfigString(items[0].1, json);
      Prefixed(PairLine(target, k, v), ItemLines(target, items[1..], json))
  }

  /** The lines are produced exactly when every key and every value can be rendered. */
  lemma {:induction false} ItemLinesSucceedIff(target: string, items: seq<(Value, Value)>, json: Value -> string)
    ensures ItemLines(target, items, json).Success?
        <==> forall i :: 0 <= i < |items| ==> ConfigString(items[i].0, json).Success? && ConfigString(items[i].1, json).Success?
  {
    if items != [] {
      var rest := items[1..];
      ItemLinesSucceedIff(target, rest, json);
      assert forall i :: 0 <= i < |rest| ==> rest[i] == items[i + 1];
      if forall i :: 0 <= i < |rest| ==> ConfigString(rest[i].0, json).Success? && ConfigString(rest[i].1, json).Success? {
        assert forall i :: 1 <= i < |items| ==> items[i] == rest[i - 1];
      }
    }
  }

  /** The items of a dictionary all of whose keys are strings, or `None`. */
  function StringKeyed(entries: seq<(Value, Value)>): (r: Option<seq<Item>>)
    ensures r.Some? <==> forall i :: 0 <= i < |entries| ==> entries[i].0.PyStr?
    ensures r.Some? ==> |r.value| == |entries| && forall i :: 0 <= i < |entries| ==> entries[i] == (PyStr(r.value[i].0), r.value[i].1)
  {
    if entries == [] then Some([])
    else if !entries[0].0.PyStr? then None
    else
      match StringKeyed(entries[1..])
      case None => None
      case Some(rest) => Some([(entries[0].0.s, entries[0].1)] + rest)
  }

  /** Items with string keys, back as dictionary entries. */
  function Entries(items: seq<Item>): (r: seq<(Value, Value)>)
    ensures |r| == |items| && forall i :: 0 <= i < |items| ==> r[i] == (PyStr(items[i].0), items[i].1)
  {
    if items == [] then [] else [(PyStr(items[0].0), items[0].1)] + Entries(items[1..])
  }

  /** The error `sorted` raises when two keys cannot be compared. */
  const Unorderable := Error(PyTypeError, "'<' not supported between instances of dictionary keys")

  /**
   * `sorted(value.items())`. Keys are distinct, so the items are ordered by
   * key alone: all strings, or all numbers. Keys of mixed or unordered types
   * raise; a dictionary of at most one entry needs no comparison at all.
   */
  function SortedItems(entries: seq<(Value, Value)>): (r: Result<seq<(Value, Value)>, Error>)
  {
    if |entries| <= 1 then Success(entries)
    else match StringKeyed(entries)
      case Some(items) => Success(Entries(SortByKey(items)))
      case None =>
        if forall i :: 0 <= i < |entries| ==> IsNumber(entries[i].0) then Success(SortByNumber(entries))
        else Failure(Unorderable)
  }

  /** `sorted(d.items())` for numeric keys: the same entries, keys in ascending numeric order. */
  lemma SortedItemsOfNumbers(entries: seq<(Value, Value)>)
    requires forall i :: 0 <= i < |entries| ==> IsNumber(entries[i].0)
    ensures SortedItems(entries).Success?
    ensures var r := SortedItems(entries).value;
            |r| == |entries| &&
            (forall e :: e in r <==> e in entries) && multiset(r) == multiset(entries) &&
            forall i, j :: 0 <= i < j < |r| ==> NumberOf(r[i].0) <= NumberOf(r[j].0)
  {
    if |entries| > 1 {
      assert !entries[0].0.PyStr?;
      SortByNumberIsPermutation(entries);
    }
  }

  /** Sorting a dictionary of two or more entries raises exactly when its keys are neither all strings nor all numbers. */
  lemma SortedItemsFailsIff(entries: seq<(Value, Value)>)
    ensures SortedItems(entries).Failure? <==>
              |entries| > 1 &&
              !(forall i :: 0 <= i < |entries| ==> entries[i].0.PyStr?) &&
              !(forall i :: 0 <= i < |entries| ==> IsNumber(entries[i].0))
    ensures SortedItems(entries).Failure? ==> SortedItems(entries).error == Unorderable
  {
  }

  /** `config_opts[<option>]`. */
  function OptionTarget(option: string): string
  {
    "config_opts[" + option + "]"
  }

  /** `gen_config_option` as a value. */
  function ConfigOption(option: Value, value: Value, append: bool, json: Value -> string): (r: Result<string, Error>)
  {
    var o :- ConfigString(option, json);
    if value.PyDict? then
      var items :- SortedItems(value.entries);
      ItemLines(OptionTarget(o), items, json)
    else if append then
      var v :- ConfigString(value, json);
      Success(OptionTarget(o) + ".append(" + v + ")\n")
    else
      var v :- ConfigString(value, json);
      Success(OptionTarget(o) + " = " + v + "\n")
  }

  /** The option lines for `items`, accumulated one line per item. */
  method ItemLinesLoop(target: string, items: seq<(Value, Value)>, json: Value -> string)
    returns (r: Result<string, Error>)
    ensures r == ItemLines(target, items, json)
  {
    var outter := "";
    var i := 0;
    assert items[0..] == items;
    PrefixedEmpty(ItemLines(target, items, json));
    while i < |items|
      invariant 0 <= i <= |items|
      invariant Prefixed(outter, ItemLines(target, items[i..], json)) == ItemLines(target, items, json)
    {
      var k := ConfigString(items[i].0, json);
      if k.Failure? {
        return Failure(k.error);
      }
      var v := ConfigString(items[i].1, json);
      if v.Failure? {
        return Failure(v.error);
      }
      var line := PairLine(target, k.value, v.value);
      assert items[i..][1..] == items[i + 1..];
      PrefixedTwice(outter, line, ItemLines(target, items[i + 1..], json));
      outter := outter + line;
      i := i + 1;
    }
    assert outter + "" == outter;
    r := Success(outter);
  }

  /** `gen_config_option`: a dictionary is written out one sorted entry per line. */
  method GenConfigOption(option: Value, value: Value, append: bool, json: Value -> string)
    returns (r: Result<string, Error>)
    ensures r == ConfigOption(option, value, append, json)
  {
    var o := ConfigString(option, json);
    if o.Failure? {
      return Failure(o.error);
    }
    var target := OptionTarget(o.value);
    if value.PyDict? {
      var sorted := SortedItems(value.entries);
      if sorted.Failure? {
        return Failure(sorted.error);
      }
      assert ConfigOption(option, value, append, json) == ItemLines(target, sorted.value, json);
      r := ItemLinesLoop(target, sorted.value, json);
    } else {
      var v := ConfigString(value, json);
      if v.Failure? {
        return Failure(v.error);
      }
      assert ConfigString(value, json) == v;
      if append {
        r := Success(target + ".append(" + v.value + ")\n");
      } else {
        r := Success(target + " = " + v.value + "\n");
      }
    }
  }

  /** `sorted(d.items())` for string keys: the same entries, keys in ascending order. */
  lemma SortedItemsOfStrings(entries: seq<(Value, Value)>)
    requires forall i :: 0 <= i < |entries| ==> entries[i].0.PyStr?
    ensures SortedItems(entries).Success?
    ensures var r := SortedItems(entries).value;
            |r| == |entries| &&
            (forall e :: e in r <==> e in entries) &&
            forall i, j :: 0 <= i < j < |r| ==> StrLe(r[i].0.s, r[j].0.s)
  {
    if |entries| > 1 {
      var items := StringKeyed(entries).value;
      var sorted := SortByKey(items);
      assert Entries(items) == entries;
      forall e
        ensures e in Entries(sorted) <==> e in entries
      {
        EntriesHas(sorted, e);
        EntriesHas(items, e);
      }
    }
  }

  /** An entry is among the entries of `items` exactly when its key is a string and the item is in `items`. */
  lemma EntriesHas(items: seq<Item>, e: (Value, Value))
    ensures e in Entries(items) <==> e.0.PyStr? && (e.0.s, e.1) in items
  {
    var es := Entries(items);
    if e in es {
      var i :| 0 <= i < |es| && es[i] == e;
      assert items[i] == (e.0.s, e.1);
    }
    if e.0.PyStr? && (e.0.s, e.1) in items {
      var i :| 0 <= i < |items| && items[i] == (e.0.s, e.1);
      assert es[i] == e;
    }
  }

  /** A dictionary of one entry gives exactly one option line. */
  lemma SingleEntryOption(option: Value, key: Value, val: Value, json: Value -> string)
    requires !option.PyDict? && !option.PyObject? && !key.PyDict? && !key.PyObject? && !val.PyDict? && !val.PyObject?
    ensures ConfigOption(option, PyDict([(key, val)]), false, json)
         == Success(PairLine(OptionTarget(ConfigString(option, json).value), ConfigString(key, json).value, ConfigString(val, json).value))
  {
    var target := OptionTarget(ConfigString(option, json).value);
    var line := PairLine(target, ConfigString(key, json).value, ConfigString(val, json).value);
    assert [(key, val)][1..] == [];
    assert ItemLines(target, [(key, val)][1..], json) == Success("");
    assert line + "" == line;
    assert ItemLines(target, [(key, val)], json) == Success(line);
    assert SortedItems([(key, val)]) == Success([(key, val)]);
  }

  /** Sorting items already sorted by distinct keys changes nothing. */
  lemma {:induction false} SortedIsFixed(s: seq<Item>)
    requires SortedByKey(s)
    ensures SortByKey(s) == s
  {
    if s != [] {
      assert SortedByKey(s[1..]);
      SortedIsFixed(s[1..]);
      assert s == [s[0]] + s[1..];
      if |s| > 1 {
        assert StrLe(s[0].0, s[1].0);
      }
    }
  }

  /** With `append` the option gets a single `.append(...)` line. */
  lemma AppendOptionLine(option: Value, value: Value, json: Value -> string)
    requires !option.PyDict? && !option.PyObject? && !value.PyDict? && !value.PyObject?
    ensures ConfigOption(option, value, true, json)
         == Success("config_opts[" + ConfigString(option, json).value + "].append(" + ConfigString(value, json).value + ")\n")
  {
    var o, v := ConfigString(option, json).value, ConfigString(value, json).value;
    assert "config_opts[" + o + "].append(" + v + ")\n" == OptionTarget(o) + ".append(" + v + ")\n";
  }

  /** A plugin as the mock configuration keeps it, with the name its class gives it. */
  datatype Plugin =
    | Generic(name: string, enable: Value, opts: seq<Item>)
    | BindMount(enable: Value, mounts: seq<(Value, Value)>)
    | ChrootScan(enable: Value, opts: seq<Item>)
    | Showrc(enable: Value)
  {
    function Name(): string
    {
      match this
      case Generic(name, _, _) => name
      case BindMount(_, _) => "bind_mount"
      case ChrootScan(_, _) => "chroot_scan"
      case Showrc(_) => "showrc"
    }
  }

  /** `config_opts["plugin_conf"]["bind_mount_opts"]["dirs"].append(("<local>", "<chroot>"))\n`. */
  function MountLine(mount: (Value, Value)): string
  {
    MountHead + Str(mount.0) + MountMid + Str(mount.1) + MountTail
  }

  const MountHead := PluginConf + "bind_mount_opts\"][\"dirs\"].append((\""
  const MountMid := "\", \""
  const MountTail := "\"))\n"

  function MountLines(mounts: seq<(Value, Value)>): (r: string)
  {
    if mounts == [] then "" else MountLine(mounts[0]) + MountLines(mounts[1..])
  }

  /**
   * `MockBindMountPluginConfig.gen_config` as written: the status is first
   * turned into the string "True"/"False" and that string is rendered again,
   * this time through JSON.
   */
  function BindMountAsWritten(enable: Value, mounts: seq<(Value, Value)>, json: Value -> string): (r: Result<string, Error>)
  {
    var status :- ConfigString(enable, json);
    var out :- GenConfigString("bind_mount", PyStr(status), json);
    if !Truthy(enable) || mounts == [] then Success(out) else Success(out + MountLines(mounts))
  }

  /**
   * A disabled bind mount plugin is written with the quoted, non-empty
   * string "False" as its status, where every other plugin gets `False`.
   */
  lemma BindMountDisabledIsQuoted(mounts: seq<(Value, Value)>, json: Value -> string)
    requires json(PyStr("False")) == "\"False\""
    ensures BindMountAsWritten(PyBool(false), mounts, json) == Success(EnableLine("bind_mount", "\"False\""))
    ensures GenConfigString("bind_mount", PyBool(false), json) == Success(EnableLine("bind_mount", "False"))
  {
  }

  /** The bind mount plugin with its status rendered once, like every other plugin. */
  function BindMountConfig(enable: Value, mounts: seq<(Value, Value)>, json: Value -> string): (r: Result<string, Error>)
  {
    var out :- GenConfigString("bind_mount", enable, json);
    if !Truthy(enable) || mounts == [] then Success(out) else Success(out + MountLines(mounts))
  }

  /**
   * `gen_config` of the bind mount plugin: the enable line with the status
   * rendered twice, then one line per mount while enabled.
   */
  method GenBindMountConfig(enable: Value, mounts: seq<(Value, Value)>, json: Value -> string)
    returns (r: Result<string, Error>)
    ensures r == BindMountAsWritten(enable, mounts, json)
  {
    var status := ConfigString(enable, json);
    if status.Failure? {
      return Failure(status.error);
    }
    var out := GenConfigString("bind_mount", PyStr(status.value), json);
    if out.Failure? || !Truthy(enable) || mounts == [] {
      return out;
    }
    var text := AppendMountLines(out.value, mounts);
    r := Success(text);
  }

  /** The loop of `gen_config` over the mounts: one line per mount, appended in order. */
  method AppendMountLines(prefix: string, mounts: seq<(Value, Value)>) returns (text: string)
    ensures text == prefix + MountLines(mounts)
  {
    text := prefix;
    var i := 0;
    while i < |mounts|
      invariant 0 <= i <= |mounts|
      invariant text + MountLines(mounts[i..]) == prefix + MountLines(mounts)
    {
      var line := MountLine(mounts[i]);
      assert mounts[i..][1..] == mounts[i + 1..];
      assert text + (line + MountLines(mounts[i + 1..])) == (text + line) + MountLines(mounts[i + 1..]);
      text := text + line;
      i := i + 1;
    }
    assert MountLines(mounts[i..]) == "";
    assert text + "" == text;
  }

  /**
   * For a boolean status the bind mount text is one enable line whose value
   * is the JSON rendering of the string "True" or "False", followed by the
   * mount lines only when enabled.
   */
  lemma BindMountAsWrittenShape(b: bool, mounts: seq<(Value, Value)>, json: Value -> string)
    ensures BindMountAsWritten(PyBool(b), mounts, json)
         == Success(EnableLine("bind_mount", json(PyStr(if b then "True" else "False"))) +
                    (if b && mounts != [] then MountLines(mounts) else ""))
  {
    var line := EnableLine("bind_mount", json(PyStr(if b then "True" else "False")));
    assert line + "" == line;
  }

  /** A boolean status gives the bind mount plugin the same enable line as any plugin; a disabled one lists no mounts. */
  lemma BindMountStatusIsBool(b: bool, mounts: seq<(Value, Value)>, json: Value -> string)
    ensures BindMountConfig(PyBool(b), mounts, json).Success?
    ensures StartsWith(BindMountConfig(PyBool(b), mounts, json).value, EnableLine("bind_mount", if b then "True" else "False"))
    ensures !b ==> BindMountConfig(PyBool(b), mounts, json) == Success(EnableLine("bind_mount", "False"))
  {
  }

  /** `MockChrootScanPluginConfig.gen_config`: the enable line, then the options as a dictionary in sorted key order. */
  function ChrootScanConfig(enable: Value, opts: seq<Item>, json: Value -> string): (r: Result<string, Error>)
  {
    var out :- GenConfigString("chroot_scan", enable, json);
    Success(out + PluginConf + "chroot_scan_opts\"] = " + Repr(PyDict(Entries(SortByKey(opts)))) + "\n")
  }

  /** The chroot scan dictionary holds exactly the given options, keys in sorted order. */
  lemma ChrootScanOptsSorted(opts: seq<Item>)
    ensures var d := Entries(SortByKey(opts));
            multiset(SortByKey(opts)) == multiset(opts) &&
            forall i, j :: 0 <= i < j < |d| ==> StrLe(d[i].0.s, d[j].0.s)
  {
    SortIsPermutation(opts);
  }

  /** `MockShowrcPluginConfig.gen_config`: the status is formatted with `str()`, not `config_string`. */
  function ShowrcConfig(enable: Value): (r: string)
  {
    PluginConf + "showrc_enable\"] = " + Str(enable) + "\n"
  }

  /** For a boolean, integer or None status the showrc line is the ordinary enable line; a string is left unquoted. */
  lemma ShowrcMatchesEnableLine(enable: Value, json: Value -> string)
    requires enable.PyBool? || enable.PyInt? || enable.PyNone?
    ensures Success(ShowrcConfig(enable)) == GenConfigString("showrc", enable, json)
  {
    var s := Str(enable);
    assert ConfigString(enable, json) == Success(s);
    assert PluginConf + "showrc_enable\"] = " + s + "\n" == PluginConf + "showrc" + "_enable\"] = " + s + "\n";
  }

  /** `gen_config` of any plugin. */
  function PluginConfig(p: Plugin, json: Value -> string): Result<string, Error>
  {
    match p
    case Generic(name, enable, opts) => WithOpts(name, enable, opts, json)
    case BindMount(enable, mounts) => BindMountAsWritten(enable, mounts, json)
    case ChrootScan(enable, opts) => ChrootScanConfig(enable, opts, json)
    case Showrc(enable) => Success(ShowrcConfig(enable))
  }

  /**
   * Every plugin's text starts with its own enable line when its status is a
   * boolean; the bind mount plugin alone writes that status as a JSON string.
   */
  lemma PluginStartsWithEnableLine(p: Plugin, json: Value -> string)
    requires p.enable.PyBool?
    ensures PluginConfig(p, json).Success? ==>
              StartsWith(PluginConfig(p, json).value,
                         EnableLine(p.Name(), if p.BindMount? then json(PyStr(Str(p.enable))) else Str(p.enable)))
  {
    match p
    case Generic(name, enable, opts) => WithOptsStartsWithEnableLine(name, enable.b, opts, json);
    case BindMount(enable, mounts) => BindMountAsWrittenShape(enable.b, mounts, json);
    case ChrootScan(enable, opts) => ChrootScanStartsWithEnableLine(enable.b, opts, json);
    case Showrc(enable) => ShowrcStartsWithEnableLine(enable.b);
  }

  lemma WithOptsStartsWithEnableLine(name: string, b: bool, opts: seq<Item>, json: Value -> string)
    ensures WithOpts(name, PyBool(b), opts, json).Success? ==>
              EnableLine(name, Str(PyBool(b))) <= WithOpts(name, PyBool(b), opts, json).value
  {
    var line := EnableLine(name, Str(PyBool(b)));
    assert ConfigString(PyBool(b), json) == Success(Str(PyBool(b)));
    var rest := OptLines(name, KeysOf(SortByKey(opts)), json);
    if b && rest.Success? {
      assert line + OptsHeader(name) + rest.value == line + (OptsHeader(name) + rest.value);
    }
  }

  lemma ChrootScanStartsWithEnableLine(b: bool, opts: seq<Item>, json: Value -> string)
    ensures ChrootScanConfig(PyBool(b), opts, json).Success?
    ensures EnableLine("chroot_scan", Str(PyBool(b))) <= ChrootScanConfig(PyBool(b), opts, json).value
  {
    var line := EnableLine("chroot_scan", Str(PyBool(b)));
    assert ConfigString(PyBool(b), json) == Success(Str(PyBool(b)));
    var tail := PluginConf + "chroot_scan_opts\"] = " + Repr(PyDict(Entries(SortByKey(opts)))) + "\n";
    assert line + PluginConf + "chroot_scan_opts\"] = " + Repr(PyDict(Entries(SortByKey(opts)))) + "\n" == line + tail;
  }

  lemma ShowrcStartsWithEnableLine(b: bool)
    ensures ShowrcConfig(PyBool(b)) == EnableLine("showrc", Str(PyBool(b)))
  {
  }

  const MissingContent := "Macro content was not provided"

  /** A file placed into the chroot, `MockChrootFileConfig`. */
  datatype ChrootFile = ChrootFile(file: string, content: Value)

  /** The constructor of `MockChrootFileConfig`: falsy content is refused. */
  function NewChrootFile(file: string, content: Value): (r: Result<ChrootFile, Error>)
    ensures r.Failure? <==> !Truthy(content)
    ensures r.Failure? ==> r.error == Error(MissingValueError, MissingContent)
    ensures r.Success? ==> r.value.file == file && r.value.content == content
  {
    if !Truthy(content) then Failure(Error(MissingValueError, MissingContent)) else Success(ChrootFile(file, content))
  }

  /** `config_opts["files"]["<file>"] = """<content>\n"""\n\n`. */
  function ChrootFileConfig(f: ChrootFile): string
  {
    "config_opts[\"files\"][\"" + f.file + "\"] = \"\"\"" + Str(f.content) + "\n\"\"\"\n\n"
  }

  /** The text of a chroot file gives its content back: two contents for one file never collide. */
  lemma ChrootFileContentRecoverable(file: string, a: Value, b: Value)
    requires ChrootFileConfig(ChrootFile(file, a)) == ChrootFileConfig(ChrootFile(file, b))
    ensures Str(a) == Str(b)
  {
    var head := "config_opts[\"files\"][\"" + file + "\"] = \"\"\"";
    var tail := "\n\"\"\"\n\n";
    var ta, tb := ChrootFileConfig(ChrootFile(file, a)), ChrootFileConfig(ChrootFile(file, b));
    assert ta == head + Str(a) + tail && tb == head + Str(b) + tail;
    assert Str(a) == ta[|head|..|ta| - |tail|];
  }

  /** `MockMacroConfig.gen_config`: `config_opts["macros"]["<name>"] = "<value>"`, with no line break. */
  function MacroConfig(name: string, value: string): (r: string)
  {
    "config_opts[\"macros\"][\"" + name + "\"] = \"" + value + "\""
  }

  /** The macro line ends with the quoted value and, for a value without line breaks, is a single unterminated line. */
  lemma MacroConfigShape(name: string, value: string)
    requires '\n' !in name && '\n' !in value
    ensures var r := MacroConfig(name, value);
            EndsWith(r, "\"" + value + "\"") && '\n' !in r
  {
    var r := MacroConfig(name, value);
    assert r == "config_opts[\"macros\"][\"" + name + "\"] = " + ("\"" + value + "\"");
  }

  /** A file of macro definitions, `MockMacroFileConfig`. */
  datatype MacroFile = MacroFile(file: string, content: Value)

  /** The constructor of `MockMacroFileConfig`: falsy content is refused. */
  function NewMacroFile(file: string, content: Value): (r: Result<MacroFile, Error>)
    ensures r.Failure? <==> !Truthy(content)
    ensures r.Failure? ==> r.error == Error(MissingValueError, MissingContent)
    ensures r.Success? ==> r.value.file == file && r.value.content == content
  {
    if !Truthy(content) then Failure(Error(MissingValueError, MissingContent)) else Success(MacroFile(file, content))
  }

  /** `config_opts["files"]["<file>"] = """\n\n<content>\n"""\n\n`. */
  function MacroFileConfig(m: MacroFile): string
  {
    "config_opts[\"files\"][\"" + m.file + "\"] = \"\"\"\n\n" + Str(m.content) + "\n\"\"\"\n\n"
  }

  /** The text of a macro file gives its content back. */
  lemma MacroFileContentRecoverable(file: string, a: Value, b: Value)
    requires MacroFileConfig(MacroFile(file, a)) == MacroFileConfig(MacroFile(file, b))
    ensures Str(a) == Str(b)
  {
    var head := "config_opts[\"files\"][\"" + file + "\"] = \"\"\"\n\n";
    var tail := "\n\"\"\"\n\n";
    var ta, tb := MacroFileConfig(MacroFile(file, a)), MacroFileConfig(MacroFile(file, b));
    assert ta == head + Str(a) + tail && tb == head + Str(b) + tail;
    assert Str(a) == ta[|head|..|ta| - |tail|];
  }
}

/**
 * The Lua voxel generator's host side: turning the table a script's
 * `arguments()` returns into parameter descriptions, turning command
 * arguments into the values passed to `main`, the voxel and region queries
 * a script may call, and the order of checks in `exec`.
 *
 * A Lua value is modelled as a datatype; the Lua stack, the interpreter and
 * the script's own behaviour are parameters.
 */
module LuaGenerator {
  import opened Wrappers
  import opened Voxel

  /**
   * A Lua value as the host sees it. Numbers carry the text Lua converts
   * them to; a table carries the values at keys 1..n (what the length
   * operator counts) and every key/value pair in traversal order.
   */
  datatype LuaValue =
    | Str(s: string)
    | Number(text: string)
    | Table(items: seq<LuaValue>, pairs: seq<(LuaValue, LuaValue)>)
    | Other

  /** lua_isstring: strings and numbers both convert to text. */
  predicate IsString(v: LuaValue) {
    v.Str? || v.Number?
  }

  function ToText(v: LuaValue): string
    requires IsString(v)
  {
    if v.Str? then v.s else v.text
  }

  /** The parameter types; Max is the "no type given yet" marker. */
  datatype ParamType = Integer | Float | String | Boolean | Max

  /** A parameter description as argumentInfo collects it. */
  datatype ParamDescription = ParamDescription(name: string, description: string, defaultValue: string, paramType: ParamType)

  /** The description before any key of an entry has been read. */
  const EMPTY_DESCRIPTION: ParamDescription := ParamDescription("", "", "", Max)

  /** A text is not a prefix of another it differs from at a shared position. */
  lemma NotPrefix(p: string, s: string, i: nat)
    requires i < |p| && i < |s| && p[i] != s[i]
    ensures !(p <= s)
  {
  }

  /** Two prefixes that differ at a shared position cannot both start the same text. */
  lemma PrefixesDiffer(p: string, q: string, s: string, i: nat)
    requires i < |p| && i < |q| && p[i] != q[i]
    ensures !(p <= s && q <= s)
  {
  }

  /** The value of a "type" key: exact "int" and "float", any text starting "str" or "bool". */
  function ParseType(value: string): (t: Option<ParamType>)
    ensures t == Some(Integer) <==> value == "int"
    ensures t == Some(Float) <==> value == "float"
    ensures t == Some(String) <==> "str" <= value
    ensures t == Some(Boolean) <==> "bool" <= value
    ensures t.None? <==> value != "int" && value != "float" && !("str" <= value) && !("bool" <= value)
    ensures t != Some(Max)
  {
    NotPrefix("str", "int", 0);
    NotPrefix("bool", "int", 0);
    NotPrefix("str", "float", 0);
    NotPrefix("bool", "float", 0);
    PrefixesDiffer("str", "bool", value, 0);
    if value == "int" then Some(Integer)
    else if value == "float" then Some(Float)
    else if "str" <= value then Some(String)
    else if "bool" <= value then Some(Boolean)
    else None
  }

  /** The keys argumentInfo understands. */
  datatype Key = NameKey | DescKey | DefaultKey | TypeKey

  /** "name", "default" and "type" match exactly; any key starting "desc" is the description. */
  function Classify(key: string): (k: Option<Key>)
    ensures k == Some(NameKey) <==> key == "name"
    ensures k == Some(DescKey) <==> "desc" <= key
    ensures k == Some(DefaultKey) <==> key == "default"
    ensures k == Some(TypeKey) <==> key == "type"
  {
    NotPrefix("desc", "name", 0);
    NotPrefix("desc", "default", 2);
    NotPrefix("desc", "type", 0);
    if key == "name" then Some(NameKey)
    else if "desc" <= key then Some(DescKey)
    else if key == "default" then Some(DefaultKey)
    else if key == "type" then Some(TypeKey)
    else None
  }

  /**
   * One key/value pair applied to the description read so far; None is an
   * error. A number key passes lua_isstring, but lua_tostring then turns the
   * key on the stack into text, which the next lua_next cannot find in the
   * table: the traversal ends in a Lua error, so such a key fails too.
   */
  function ApplyPair(d: ParamDescription, key: LuaValue, value: LuaValue): Option<ParamDescription> {
    if !IsString(value) || !IsString(key) then None
    else if key.Number? then None
    else
      var v := ToText(value);
      match Classify(key.s)
      case Some(NameKey) => Some(d.(name := v))
      case Some(DescKey) => Some(d.(description := v))
      case Some(DefaultKey) => Some(d.(defaultValue := v))
      case Some(TypeKey) => if ParseType(v).Some? then Some(d.(paramType := ParseType(v).value)) else None
      case None => Some(d)
  }

  /** The pairs applied in traversal order, stopping at the first error. */
  function ApplyPairs(d: ParamDescription, pairs: seq<(LuaValue, LuaValue)>): Option<ParamDescription> {
    if pairs == [] then Some(d)
    else
      var last := pairs[|pairs| - 1];
      match ApplyPairs(d, pairs[..|pairs| - 1])
      case None => None
      case Some(e) => ApplyPair(e, last.0, last.1)
  }

  /** One entry of the `arguments()` table: its pairs read, then a name and a type required. */
  function ParseEntry(entry: LuaValue): Option<ParamDescription> {
    if !entry.Table? then None
    else match ApplyPairs(EMPTY_DESCRIPTION, entry.pairs)
      case None => None
      case Some(d) => if d.name == "" || d.paramType == Max then None else Some(d)
  }

  /** An entry's keys are all strings, its values strings or numbers, and every "type" value is a known type. */
  predicate WellFormedPairs(pairs: seq<(LuaValue, LuaValue)>) {
    forall i :: 0 <= i < |pairs| ==>
      pairs[i].0.Str? && IsString(pairs[i].1)
      && (Classify(pairs[i].0.s) == Some(TypeKey) ==> ParseType(ToText(pairs[i].1)).Some?)
  }

  /** The value of the last string pair whose key is of the given kind. */
  function LastValue(pairs: seq<(LuaValue, LuaValue)>, k: Key): Option<string> {
    if pairs == [] then None
    else
      var last := pairs[|pairs| - 1];
      if last.0.Str? && IsString(last.1) && Classify(last.0.s) == Some(k) then Some(ToText(last.1))
      else LastValue(pairs[..|pairs| - 1], k)
  }

  function ValueOr(o: Option<string>, default: string): string {
    if o.Some? then o.value else default
  }

  /**
   * Reading the pairs fails exactly when one of them is malformed; otherwise
   * each field holds the value of the last pair of its kind, or its old value.
   */
  lemma ApplyPairsMeaning(d: ParamDescription, pairs: seq<(LuaValue, LuaValue)>)
    ensures ApplyPairs(d, pairs).Some? <==> WellFormedPairs(pairs)
    ensures ApplyPairs(d, pairs).Some? ==>
              var e := ApplyPairs(d, pairs).value;
              && e.name == ValueOr(LastValue(pairs, NameKey), d.name)
              && e.description == ValueOr(LastValue(pairs, DescKey), d.description)
              && e.defaultValue == ValueOr(LastValue(pairs, DefaultKey), d.defaultValue)
              && (LastValue(pairs, TypeKey).Some? ==> ParseType(LastValue(pairs, TypeKey).value) == Some(e.paramType))
              && (LastValue(pairs, TypeKey).None? ==> e.paramType == d.paramType)
  {
    ApplyPairsDefined(d, pairs);
    if ApplyPairs(d, pairs).Some? {
      ApplyPairsFields(d, pairs);
    }
  }

  /** Reading the pairs fails exactly when one of them is malformed. */
  lemma {:induction false} ApplyPairsDefined(d: ParamDescription, pairs: seq<(LuaValue, LuaValue)>)
    ensures ApplyPairs(d, pairs).Some? <==> WellFormedPairs(pairs)
  {
    if pairs != [] {
      var front := pairs[..|pairs| - 1];
      ApplyPairsDefined(d, front);
      assert forall i :: 0 <= i < |front| ==> front[i] == pairs[i];
      if WellFormedPairs(pairs) {
        assert WellFormedPairs(front);
      }
    }
  }

  /** The text field a key of kind k sets; the type field is not text. */
  function TextField(e: ParamDescription, k: Key): string
    requires k != TypeKey
  {
    match k
    case NameKey => e.name
    case DescKey => e.description
    case DefaultKey => e.defaultValue
  }

  /** A successful read leaves in each field the value of the last pair of its kind, or the old value. */
  lemma ApplyPairsFields(d: ParamDescription, pairs: seq<(LuaValue, LuaValue)>)
    requires ApplyPairs(d, pairs).Some?
    ensures var e := ApplyPairs(d, pairs).value;
              && e.name == ValueOr(LastValue(pairs, NameKey), d.name)
              && e.description == ValueOr(LastValue(pairs, DescKey), d.description)
              && e.defaultValue == ValueOr(LastValue(pairs, DefaultKey), d.defaultValue)
              && (LastValue(pairs, TypeKey).Some? ==> ParseType(LastValue(pairs, TypeKey).value) == Some(e.paramType))
              && (LastValue(pairs, TypeKey).None? ==> e.paramType == d.paramType)
  {
    ApplyPairsText(d, pairs, NameKey);
    ApplyPairsText(d, pairs, DescKey);
    ApplyPairsText(d, pairs, DefaultKey);
    ApplyPairsType(d, pairs);
  }

  /** A text field ends with the value of the last pair of its kind, or keeps its old value. */
  lemma {:induction false} ApplyPairsText(d: ParamDescription, pairs: seq<(LuaValue, LuaValue)>, k: Key)
    requires k != TypeKey
    requires ApplyPairs(d, pairs).Some?
    ensures TextField(ApplyPairs(d, pairs).value, k) == ValueOr(LastValue(pairs, k), TextField(d, k))
  {
    if pairs != [] {
      ApplyPairsText(d, pairs[..|pairs| - 1], k);
    }
  }

  /** The type field ends with the type of the last type pair, or keeps its old value. */
  lemma {:induction false} ApplyPairsType(d: ParamDescription, pairs: seq<(LuaValue, LuaValue)>)
    requires ApplyPairs(d, pairs).Some?
    ensures LastValue(pairs, TypeKey).Some? ==> ParseType(LastValue(pairs, TypeKey).value) == Some(ApplyPairs(d, pairs).value.paramType)
    ensures LastValue(pairs, TypeKey).None? ==> ApplyPairs(d, pairs).value.paramType == d.paramType
  {
    if pairs != [] {
      ApplyPairsType(d, pairs[..|pairs| - 1]);
    }
  }

  /** A type pair read successfully always leaves a real type. */
  lemma {:induction false} LastTypeIsKnown(pairs: seq<(LuaValue, LuaValue)>)
    requires WellFormedPairs(pairs)
    requires LastValue(pairs, TypeKey).Some?
    ensures ParseType(LastValue(pairs, TypeKey).value).Some?
  {
    var front := pairs[..|pairs| - 1];
    var last := pairs[|pairs| - 1];
    if !(last.0.Str? && IsString(last.1) && Classify(last.0.s) == Some(TypeKey)) {
      assert forall i :: 0 <= i < |front| ==> front[i] == pairs[i];
      LastTypeIsKnown(front);
    }
  }

  /**
   * An entry is accepted exactly when it is a table of well formed pairs
   * with a non-empty name and a type; its fields are the last values given.
   */
  lemma EntryMeaning(entry: LuaValue)
    ensures ParseEntry(entry).Some? <==>
              && entry.Table?
              && WellFormedPairs(entry.pairs)
              && ValueOr(LastValue(entry.pairs, NameKey), "") != ""
              && LastValue(entry.pairs, TypeKey).Some?
    ensures ParseEntry(entry).Some? ==>
              var d := ParseEntry(entry).value;
              && d.name == LastValue(entry.pairs, NameKey).value
              && d.description == ValueOr(LastValue(entry.pairs, DescKey), "")
              && d.defaultValue == ValueOr(LastValue(entry.pairs, DefaultKey), "")
              && ParseType(LastValue(entry.pairs, TypeKey).value) == Some(d.paramType)
  {
    if entry.Table? {
      ApplyPairsMeaning(EMPTY_DESCRIPTION, entry.pairs);
      if WellFormedPairs(entry.pairs) && LastValue(entry.pairs, TypeKey).Some? {
        LastTypeIsKnown(entry.pairs);
      }
    }
  }

  /**
   * A positional value in an entry, as in `{ 'x', name = 'n', type = 'int' }`,
   * sits at the number key 1, so the entry cannot be read; without it the
   * entry is read.
   */
  lemma NumberKeyFails()
    ensures ParseEntry(Table([Str("x")], [(Number("1"), Str("x")), (Str("name"), Str("n")), (Str("type"), Str("int"))])).None?
    ensures ParseEntry(Table([], [(Str("name"), Str("n")), (Str("type"), Str("int"))])) == Some(ParamDescription("n", "", "", Integer))
  {
    var positional := Table([Str("x")], [(Number("1"), Str("x")), (Str("name"), Str("n")), (Str("type"), Str("int"))]);
    EntryMeaning(positional);
    assert !positional.pairs[0].0.Str?;
    var named := [(Str("name"), Str("n")), (Str("type"), Str("int"))];
    assert named[..1] == [(Str("name"), Str("n"))] && named[..1][..0] == [];
    assert ApplyPairs(EMPTY_DESCRIPTION, named[..1]) == Some(EMPTY_DESCRIPTION.(name := "n"));
  }

  /** The entries parsed in order; the first bad entry stops the parse with the ones before it kept. */
  function ParseEntries(items: seq<LuaValue>): (bool, seq<ParamDescription>) {
    if items == [] then (true, [])
    else match ParseEntry(items[0])
      case None => (false, [])
      case Some(d) =>
        var rest := ParseEntries(items[1..]);
        (rest.0, [d] + rest.1)
  }

  /**
   * The parse keeps one description per entry up to the first bad one: it
   * succeeds exactly when every entry is good, and otherwise the entry just
   * past the kept ones is the bad one.
   */
  lemma {:induction false} ParseEntriesMeaning(items: seq<LuaValue>)
    ensures var (ok, parsed) := ParseEntries(items);
            && |parsed| <= |items|
            && (forall i :: 0 <= i < |parsed| ==> ParseEntry(items[i]) == Some(parsed[i]))
            && (ok <==> |parsed| == |items|)
            && (!ok ==> ParseEntry(items[|parsed|]).None?)
  {
    if items != [] && ParseEntry(items[0]).Some? {
      var rest := items[1..];
      ParseEntriesMeaning(rest);
      var parsed := ParseEntries(items).1;
      assert parsed == [ParseEntry(items[0]).value] + ParseEntries(rest).1;
      forall i | 0 <= i < |parsed|
        ensures ParseEntry(items[i]) == Some(parsed[i])
      {
        if i > 0 {
          assert items[i] == rest[i - 1];
        }
      }
    }
  }

  /** What running the `arguments` global gives. */
  datatype ArgumentsCall =
    | NotAFunction
    | CallFailed
    | NoResult
    | Returned(value: LuaValue)

  /**
   * The part of a script's behaviour the host observes: whether it loads
   * into the bare interpreter of argumentInfo, whether it loads into the
   * interpreter exec prepares with the palette, vector and variable globals,
   * what `arguments` does, whether it defines `main`, and whether the call
   * of `main` succeeds.
   */
  datatype Script = Script(loadsBare: bool, loadsPrepared: bool, arguments: ArgumentsCall, hasMain: bool, mainSucceeds: bool)

  /** argumentInfo's verdict and the descriptions it appends. */
  function ArgumentInfoSpec(script: Script): (r: (bool, seq<ParamDescription>)) {
    if !script.loadsBare then (false, [])
    else match script.arguments
      case NotAFunction => (true, [])
      case CallFailed => (false, [])
      case NoResult => (true, [])
      case Returned(v) => if v.Table? then ParseEntries(v.items) else (false, [])
  }

  /** Missing `arguments`, or one that returns nothing, succeeds with no parameters. */
  lemma NoArgumentsIsSuccess(script: Script)
    requires script.loadsBare
    requires script.arguments.NotAFunction? || script.arguments.NoResult?
    ensures ArgumentInfoSpec(script) == (true, [])
  {
  }

  /** Reads one entry's pairs in traversal order. */
  method ReadEntry(pairs: seq<(LuaValue, LuaValue)>) returns (r: Option<ParamDescription>)
    ensures r == ApplyPairs(EMPTY_DESCRIPTION, pairs)
  {
    var d := EMPTY_DESCRIPTION;
    var i := 0;
    while i < |pairs|
      invariant 0 <= i <= |pairs|
      invariant ApplyPairs(EMPTY_DESCRIPTION, pairs[..i]) == Some(d)
    {
      assert pairs[..i + 1][..i] == pairs[..i];
      var key := pairs[i].0;
      var value := pairs[i].1;
      if !IsString(value) || !IsString(key) || key.Number? {
        assert ApplyPairs(EMPTY_DESCRIPTION, pairs[..i + 1]) == None;
        ApplyPairsStaysNone(pairs, i + 1);
        return None;
      }
      var v := ToText(value);
      var k := Classify(key.s);
      if k == Some(NameKey) {
        d := d.(name := v);
      } else if k == Some(DescKey) {
        d := d.(description := v);
      } else if k == Some(DefaultKey) {
        d := d.(defaultValue := v);
      } else if k == Some(TypeKey) {
        var t := ParseType(v);
        if t.None? {
          assert ApplyPairs(EMPTY_DESCRIPTION, pairs[..i + 1]) == None;
          ApplyPairsStaysNone(pairs, i + 1);
          return None;
        }
        d := d.(paramType := t.value);
      }
      i := i + 1;
    }
    assert pairs[..i] == pairs;
    r := Some(d);
  }

  /** Once reading the pairs has failed, reading more of them fails too. */
  lemma {:induction false} ApplyPairsStaysNone(pairs: seq<(LuaValue, LuaValue)>, n: nat)
    requires n <= |pairs|
    requires ApplyPairs(EMPTY_DESCRIPTION, pairs[..n]) == None
    ensures ApplyPairs(EMPTY_DESCRIPTION, pairs) == None
    decreases |pairs| - n
  {
    if n < |pairs| {
      assert pairs[..n + 1][..n] == pairs[..n];
      ApplyPairsStaysNone(pairs, n + 1);
    } else {
      assert pairs[..n] == pairs;
    }
  }

  /**
   * argumentInfo: appends one description per entry of the table that
   * `arguments()` returns, and stops with false at the first bad entry.
   */
  method ArgumentInfo(script: Script, params: seq<ParamDescription>) returns (ok: bool, result: seq<ParamDescription>)
    ensures ok == ArgumentInfoSpec(script).0
    ensures result == params + ArgumentInfoSpec(script).1
  {
    result := params;
    if !script.loadsBare {
      return false, result;
    }
    match script.arguments
    case NotAFunction => return true, result;
    case CallFailed => return false, result;
    case NoResult => return true, result;
    case Returned(v) =>
      if !v.Table? {
        return false, result;
      }
      var parsed;
      ok, parsed := ReadEntries(v.items);
      result := params + parsed;
  }

  /** The parse of a suffix, unfolded at its first entry. */
  lemma ParseEntriesStep(items: seq<LuaValue>, i: nat)
    requires i < |items|
    ensures ParseEntry(items[i]).None? ==> ParseEntries(items[i..]) == (false, [])
    ensures ParseEntry(items[i]).Some? ==>
              ParseEntries(items[i..]) == (ParseEntries(items[i + 1..]).0, [ParseEntry(items[i]).value] + ParseEntries(items[i + 1..]).1)
  {
    assert items[i..][0] == items[i] && items[i..][1..] == items[i + 1..];
  }

  /** The loop of argumentInfo over the entries of the returned table. */
  method ReadEntries(items: seq<LuaValue>) returns (ok: bool, parsed: seq<ParamDescription>)
    ensures (ok, parsed) == ParseEntries(items)
  {
    parsed := [];
    var i := 0;
    assert items[0..] == items;
    while i < |items|
      invariant 0 <= i <= |items|
      invariant ParseEntries(items).0 == ParseEntries(items[i..]).0
      invariant ParseEntries(items).1 == parsed + ParseEntries(items[i..]).1
    {
      ParseEntriesStep(items, i);
      var entry := items[i];
      if !entry.Table? {
        assert parsed + ParseEntries(items[i..]).1 == parsed;
        return false, parsed;
      }
      var d := ReadEntry(entry.pairs);
      if d.None? || d.value.name == "" || d.value.paramType == Max {
        assert ParseEntry(entry).None?;
        assert parsed + ParseEntries(items[i..]).1 == parsed;
        return false, parsed;
      }
      assert ParseEntry(entry) == d;
      assert (parsed + [d.value]) + ParseEntries(items[i + 1..]).1 == parsed + ([d.value] + ParseEntries(items[i + 1..]).1);
      parsed := parsed + [d.value];
      i := i + 1;
    }
    assert items[i..] == [];
    assert parsed + ParseEntries(items[i..]).1 == parsed;
    ok := true;
  }

  /** A value passed to `main` after the volume, the region and the colour. */
  datatype Argument = StringArg(s: string) | BoolArg(b: bool) | IntArg(text: string) | FloatArg(text: string)

  /** A Boolean parameter is true exactly for the text "1" or "true". */
  function ParseBool(arg: string): (b: bool)
    ensures b <==> arg == "1" || arg == "true"
    ensures arg == "" ==> !b
  {
    arg == "1" || arg == "true"
  }

  /** The text used for parameter i: the supplied argument, or the description's default. */
  function ArgumentText(args: seq<string>, i: nat, d: ParamDescription): (text: string)
    ensures i < |args| ==> text == args[i]
    ensures i >= |args| ==> text == d.defaultValue
  {
    if |args| > i then args[i] else d.defaultValue
  }

  /** The value pushed for one parameter; integer and float text keep their text, as the host's toInt and toFloat conversion is left out. */
  function ArgumentValue(d: ParamDescription, text: string): (a: Option<Argument>)
    ensures a.None? <==> d.paramType == Max
    ensures d.paramType == Boolean ==> a == Some(BoolArg(ParseBool(text)))
  {
    match d.paramType
    case String => Some(StringArg(text))
    case Boolean => Some(BoolArg(ParseBool(text)))
    case Integer => Some(IntArg(text))
    case Float => Some(FloatArg(text))
    case Max => None
  }

  /**
   * luaVoxel_pushargs: one value per description, from the supplied
   * arguments or the defaults; extra arguments are ignored and a description
   * without a type stops the push with false.
   */
  method PushArgs(args: seq<string>, info: seq<ParamDescription>) returns (ok: bool, pushed: seq<Argument>)
    ensures ok <==> forall i :: 0 <= i < |info| ==> info[i].paramType != Max
    ensures ok ==> |pushed| == |info|
    ensures |pushed| <= |info|
    ensures forall i :: 0 <= i < |pushed| ==> Some(pushed[i]) == ArgumentValue(info[i], ArgumentText(args, i, info[i]))
    ensures !ok ==> |pushed| < |info| && info[|pushed|].paramType == Max
  {
    pushed := [];
    var i := 0;
    while i < |info|
      invariant 0 <= i <= |info|
      invariant |pushed| == i
      invariant forall j :: 0 <= j < i ==> info[j].paramType != Max
      invariant forall j :: 0 <= j < i ==> Some(pushed[j]) == ArgumentValue(info[j], ArgumentText(args, j, info[j]))
    {
      var d := info[i];
      var arg := if |args| > i then args[i] else d.defaultValue;
      var value: Argument;
      match d.paramType {
        case String => value := StringArg(arg);
        case Boolean => value := BoolArg(arg == "1" || arg == "true");
        case Integer => value := IntArg(arg);
        case Float => value := FloatArg(arg);
        case Max => return false, pushed;
      }
      pushed := pushed + [value];
      i := i + 1;
    }
    ok := true;
  }

  /** Every description argumentInfo accepts has a type, so pushing its arguments cannot fail. */
  lemma ParsedHaveTypes(script: Script)
    ensures forall i :: 0 <= i < |ArgumentInfoSpec(script).1| ==> ArgumentInfoSpec(script).1[i].paramType != Max
  {
    if script.loadsBare && script.arguments.Returned? && script.arguments.value.Table? {
      ParseEntriesMeaning(script.arguments.value.items);
    }
  }

  /** A volume's voxel as a script sees it: -1 for Air, otherwise the colour index. */
  function VolumeVoxel(volume: Pos -> Voxel, x: int, y: int, z: int): (r: int)
    ensures r == -1 <==> IsAir(volume(Pos(x, y, z)).material)
    ensures r != -1 ==> r == volume(Pos(x, y, z)).color
  {
    var v := volume(Pos(x, y, z));
    if IsAir(v.material) then -1 else v.color
  }

  /** region:width(): the number of voxel columns along x, both corners included. */
  function RegionWidth(r: Region): (w: int)
    ensures r.Valid() ==> w >= 1
    ensures r.Valid() ==> r.Contains(Pos(r.lower.x + w - 1, r.lower.y, r.lower.z))
    ensures !r.Contains(Pos(r.lower.x + w, r.lower.y, r.lower.z))
  {
    r.upper.x - r.lower.x + 1
  }

  /** region:height(): the number of voxel rows along y. */
  function RegionHeight(r: Region): (h: int)
    ensures r.Valid() ==> h >= 1
    ensures r.Valid() ==> r.Contains(Pos(r.lower.x, r.lower.y + h - 1, r.lower.z))
    ensures !r.Contains(Pos(r.lower.x, r.lower.y + h, r.lower.z))
  {
    r.upper.y - r.lower.y + 1
  }

  /** region:depth(): the number of voxel slices along z. */
  function RegionDepth(r: Region): (d: int)
    ensures r.Valid() ==> d >= 1
    ensures r.Valid() ==> r.Contains(Pos(r.lower.x, r.lower.y, r.lower.z + d - 1))
    ensures !r.Contains(Pos(r.lower.x, r.lower.y, r.lower.z + d))
  {
    r.upper.z - r.lower.z + 1
  }

  /** region:mins() (and x(), y(), z(), its components): the least point of the region. */
  function RegionMins(r: Region): (m: Pos)
    ensures r.Valid() ==> r.Contains(m)
    ensures forall p :: r.Contains(p) ==> m.x <= p.x && m.y <= p.y && m.z <= p.z
  {
    r.lower
  }

  /** region:maxs(): the greatest point of the region. */
  function RegionMaxs(r: Region): (m: Pos)
    ensures r.Valid() ==> r.Contains(m)
    ensures forall p :: r.Contains(p) ==> p.x <= m.x && p.y <= m.y && p.z <= m.z
  {
    r.upper
  }

  /** The call exec makes to `main`: its argument count and the values after volume, region and colour. */
  datatype MainCall = MainCall(arity: nat, color: nat, args: seq<Argument>)

  /**
   * exec: argumentInfo must succeed; "help" as the first argument then ends
   * the run with true before anything else; otherwise the script must load
   * and define `main`, a volume must be given, and `main` is called with the
   * volume, the region, the colour and one value per parameter.
   */
  method Exec(script: Script, volumeGiven: bool, voxel: Voxel, args: seq<string>) returns (ok: bool, call: Option<MainCall>)
    ensures !ArgumentInfoSpec(script).0 ==> !ok && call.None?
    ensures ArgumentInfoSpec(script).0 && |args| > 0 && args[0] == "help" ==> ok && call.None?
    ensures call.Some? ==> call.value.arity == 3 + |ArgumentInfoSpec(script).1|
                           && |call.value.args| == |ArgumentInfoSpec(script).1|
                           && call.value.color == voxel.color
    ensures call.Some? <==> ArgumentInfoSpec(script).0 && !(|args| > 0 && args[0] == "help")
                            && script.loadsPrepared && script.hasMain && volumeGiven
    ensures call.Some? ==> ok == script.mainSucceeds
    ensures call.None? && ArgumentInfoSpec(script).0 && !(|args| > 0 && args[0] == "help") ==> !ok
    ensures call.Some? ==> forall i :: 0 <= i < |call.value.args| ==>
              Some(call.value.args[i]) == ArgumentValue(ArgumentInfoSpec(script).1[i], ArgumentText(args, i, ArgumentInfoSpec(script).1[i]))
    ensures ok ==> ArgumentInfoSpec(script).0
  {
    var infoOk, argsInfo := ArgumentInfo(script, []);
    if !infoOk {
      return false, None;
    }
    if |args| > 0 && args[0] == "help" {
      return true, None;
    }
    if !script.loadsPrepared || !script.hasMain || !volumeGiven {
      return false, None;
    }
    ParsedHaveTypes(script);
    var pushedOk, pushed := PushArgs(args, argsInfo);
    if !pushedOk {
      assert false;
      return false, None;
    }
    call := Some(MainCall(3 + |argsInfo|, voxel.color, pushed));
    ok := script.mainSucceeds;
  }
}

/**
 * The user interface's language string manager: a table from string ids to
 * translated strings. Loading a file adds its strings to the table without
 * clearing what is there; clearing empties it; a lookup of an id that has no
 * string yields a placeholder, which in debug builds names the id.
 *
 * Ids are kept as their text; the hashing of ids into numbers and the
 * parsing of language files are not part of this model; a file is given as
 * the id/string pairs it holds, in file order, or None when it cannot be read.
 */
module TBLanguage {
  import opened Wrappers

  type Id = string

  /** The placeholder of an id without a string: release builds do not name the id, debug builds do. */
  function Placeholder(debugBuild: bool, id: Id): string {
    if debugBuild then "<TRANSLATE:" + id + ">" else "<TRANSLATE!>"
  }

  /** Debug placeholders tell ids apart: two ids share one only when they are the same id. */
  lemma DebugPlaceholdersDiffer(a: Id, b: Id)
    ensures Placeholder(true, a) == Placeholder(true, b) <==> a == b
  {
    if Placeholder(true, a) == Placeholder(true, b) {
      var pa := Placeholder(true, a);
      var pb := Placeholder(true, b);
      assert |a| == |b|;
      assert a == pa[11..|pa| - 1];
      assert b == pb[11..|pb| - 1];
    }
  }

  /** The table after adding each pair in turn; a later pair for the same id wins. */
  function AddAll(table: map<Id, string>, entries: seq<(Id, string)>): map<Id, string>
    decreases |entries|
  {
    if entries == [] then table
    else
      var last := entries[|entries| - 1];
      AddAll(table, entries[..|entries| - 1])[last.0 := last.1]
  }

  /** Adding only adds: the ids afterwards are the ids before and the ids of the pairs. */
  lemma {:induction false} AddAllIds(table: map<Id, string>, entries: seq<(Id, string)>)
    ensures AddAll(table, entries).Keys == table.Keys + set i | 0 <= i < |entries| :: entries[i].0
    decreases |entries|
  {
    if entries != [] {
      var front := entries[..|entries| - 1];
      AddAllIds(table, front);
      assert forall i :: 0 <= i < |front| ==> front[i] == entries[i];
      assert (set i | 0 <= i < |entries| :: entries[i].0)
          == (set i | 0 <= i < |front| :: front[i].0) + {entries[|entries| - 1].0};
    }
  }

  /** An id no pair names keeps what the table held. */
  lemma {:induction false} AddAllUntouched(table: map<Id, string>, entries: seq<(Id, string)>, id: Id)
    requires id in table
    requires forall i :: 0 <= i < |entries| ==> entries[i].0 != id
    ensures id in AddAll(table, entries) && AddAll(table, entries)[id] == table[id]
    decreases |entries|
  {
    if entries != [] {
      var front := entries[..|entries| - 1];
      assert forall i :: 0 <= i < |front| ==> front[i] == entries[i];
      AddAllUntouched(table, front, id);
    }
  }

  /** The last pair for an id decides its string. */
  lemma {:induction false} AddAllLast(table: map<Id, string>, entries: seq<(Id, string)>, i: nat)
    requires i < |entries|
    requires forall j :: i < j < |entries| ==> entries[j].0 != entries[i].0
    ensures entries[i].0 in AddAll(table, entries) && AddAll(table, entries)[entries[i].0] == entries[i].1
    decreases |entries|
  {
    var front := entries[..|entries| - 1];
    if i < |entries| - 1 {
      assert forall j :: 0 <= j < |front| ==> front[j] == entries[j];
      AddAllLast(table, front, i);
    }
  }

  /** The string manager: its string table and whether it is a debug build. */
  class Language {
    const debugBuild: bool
    var strings: map<Id, string>

    constructor(debugBuild: bool)
      ensures this.debugBuild == debugBuild && strings == map[]
    {
      this.debugBuild := debugBuild;
      strings := map[];
    }

    /** load: adds the file's strings to the table; a file that cannot be read changes nothing. */
    method Load(file: Option<seq<(Id, string)>>) returns (ok: bool)
      modifies this
      ensures ok <==> file.Some?
      ensures strings == if file.Some? then AddAll(old(strings), file.value) else old(strings)
    {
      if file.None? {
        return false;
      }
      var entries := file.value;
      var i := 0;
      while i < |entries|
        invariant 0 <= i <= |entries|
        invariant strings == AddAll(old(strings), entries[..i])
      {
        assert entries[..i + 1][..i] == entries[..i];
        strings := strings[entries[i].0 := entries[i].1];
        i := i + 1;
      }
      assert entries[..i] == entries;
      return true;
    }

    /** clear: empties the table. */
    method Clear()
      modifies this
      ensures strings == map[]
    {
      strings := map[];
    }

    /** getString: the string stored for id, or the placeholder of this build. */
    function GetString(id: Id): (r: string)
      reads this
      ensures id in strings ==> r == strings[id]
      ensures id !in strings && debugBuild ==> r == "<TRANSLATE:" + id + ">"
      ensures id !in strings && !debugBuild ==> r == "<TRANSLATE!>"
    {
      if id in strings then strings[id] else Placeholder(debugBuild, id)
    }
  }

  /**
   * A lookup after loading pairs into a table: the last string the pairs
   * give the id, else what the table gave it before.
   */
  lemma LookupAfterLoad(lang: Language, before: map<Id, string>, entries: seq<(Id, string)>, id: Id)
    requires lang.strings == AddAll(before, entries)
    ensures forall i :: 0 <= i < |entries| && entries[i].0 == id && (forall j :: i < j < |entries| ==> entries[j].0 != id) ==>
              lang.GetString(id) == entries[i].1
    ensures (forall i :: 0 <= i < |entries| ==> entries[i].0 != id) ==>
              lang.GetString(id) == if id in before then before[id] else Placeholder(lang.debugBuild, id)
  {
    forall i | 0 <= i < |entries| && entries[i].0 == id && (forall j :: i < j < |entries| ==> entries[j].0 != id)
      ensures lang.GetString(id) == entries[i].1
    {
      AddAllLast(before, entries, i);
    }
    if forall i :: 0 <= i < |entries| ==> entries[i].0 != id {
      AddAllIds(before, entries);
      assert id !in (set i | 0 <= i < |entries| :: entries[i].0);
      if id in before {
        AddAllUntouched(before, entries, id);
      }
    }
  }

  /** An id with a string keeps one through every load: load never takes strings away. */
  lemma LoadKeepsStrings(lang: Language, before: map<Id, string>, entries: seq<(Id, string)>, id: Id)
    requires lang.strings == AddAll(before, entries)
    requires id in before
    ensures id in lang.strings
  {
    AddAllIds(before, entries);
  }

  /** After clear every lookup yields the placeholder: the debug one names the id. */
  method ClearThenLookup(debugBuild: bool, entries: seq<(Id, string)>, id: Id) returns (r: string)
    ensures debugBuild ==> r == "<TRANSLATE:" + id + ">"
    ensures !debugBuild ==> r == "<TRANSLATE!>"
  {
    var lang := new Language(debugBuild);
    var ok := lang.Load(Some(entries));
    lang.Clear();
    r := lang.GetString(id);
  }

  /** Loading a pair makes its string the one a lookup gives, in either build. */
  method LoadThenLookup(debugBuild: bool, id: Id, text: string) returns (r: string)
    ensures r == text
  {
    var lang := new Language(debugBuild);
    var ok := lang.Load(Some([(id, text)]));
    LookupAfterLoad(lang, map[], [(id, text)], id);
    r := lang.GetString(id);
  }
}

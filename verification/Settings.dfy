/**
 The alert settings (src/ApplicationCommands.cpp, src/ApplicationDatabase.cpp): a vector in
 memory and a table keyed by user id, over a database that does not fail.
 */
module SettingsModel {
  import opened Wrappers
  import Text

  datatype Setting = Setting(id: int, status: nat)

  const DEFAULT: nat := 0
  const ALERT: nat := 1
  const PARANOID: nat := 2
  const INSANE: nat := 3

  type Table = map<int, nat>

  /** boost::iequals. */
  predicate SameIgnoringCase(a: string, b: string) {
    |a| == |b| && forall i :: 0 <= i < |a| ==> Text.LowerChar(a[i]) == Text.LowerChar(b[i])
  }

  /** The status /arm asks for, or None when its argument is not understood. */
  function ArmStatus(command: seq<string>): Option<nat> {
    if |command| <= 1 then Some(ALERT)
    else if SameIgnoringCase(command[1], "paranoid") then Some(PARANOID)
    else if SameIgnoringCase(command[1], "insane") then Some(INSANE)
    else None
  }

  /** The position of the first entry of a user, or the length. */
  function Position(ss: seq<Setting>, id: int): (i: nat)
    ensures i <= |ss| && (i < |ss| ==> ss[i].id == id) && forall j :: 0 <= j < i ==> ss[j].id != id
  {
    if ss == [] || ss[0].id == id then 0
    else
      var i := 1 + Position(ss[1..], id);
      assert forall j :: 0 < j < i ==> ss[j] == ss[1..][j - 1];
      i
  }

  function Arm(ss: seq<Setting>, id: int, status: nat): seq<Setting> {
    var i := Position(ss, id);
    if i < |ss| then ss[i := Setting(id, status)] else ss + [Setting(id, status)]
  }

  function Disarm(ss: seq<Setting>, id: int): seq<Setting> {
    var i := Position(ss, id);
    if i < |ss| then ss[i := Setting(id, DEFAULT)] else ss
  }

  /** Inserting rows one by one; None when a key is already there. */
  function InsertAll(t: Table, ss: seq<Setting>): Option<Table> {
    if ss == [] then Some(t)
    else
      var before := InsertAll(t, ss[..|ss| - 1]);
      var s := ss[|ss| - 1];
      if before.None? || s.id in before.value then None else Some(before.value[s.id := s.status])
  }

  /** dbSaveSettings: delete everything, then insert. */
  function Save(ss: seq<Setting>): Option<Table> {
    InsertAll(map[], ss)
  }

  ghost predicate Distinct(ss: seq<Setting>) {
    forall i, j :: 0 <= i < j < |ss| ==> ss[i].id != ss[j].id
  }

  /** The settings as a mapping from users to their status. */
  ghost predicate Represents(ss: seq<Setting>, t: Table) {
    && Distinct(ss)
    && (forall i :: 0 <= i < |ss| ==> ss[i].id in t && t[ss[i].id] == ss[i].status)
    && (forall id :: id in t ==> exists i :: 0 <= i < |ss| && ss[i].id == id)
  }

  datatype Store = Store(memory: seq<Setting>, table: Table)

  /** `rows` is the order in which SELECT returns the table. */
  datatype Event = ArmCommand(id: int, command: seq<string>) | DisarmCommand(id: int) | Restart(rows: seq<Setting>)

  /** A save that conflicts on the key leaves the old table here; it is shown never to happen. */
  function Saved(st: Store, memory: seq<Setting>): Store {
    var t := Save(memory);
    Store(memory, if t.Some? then t.value else st.table)
  }

  ghost function Step(st: Store, e: Event): Store {
    match e
    case ArmCommand(id, command) =>
      var status := ArmStatus(command);
      if status.None? then st else Saved(st, Arm(st.memory, id, status.value))
    case DisarmCommand(id) =>
      if Position(st.memory, id) < |st.memory| then Saved(st, Disarm(st.memory, id)) else st
    case Restart(rows) =>
      if Represents(rows, st.table) then st.(memory := rows) else st
  }

  ghost function Run(st: Store, es: seq<Event>): Store {
    if es == [] then st else Step(Run(st, es[..|es| - 1]), es[|es| - 1])
  }

  lemma {:induction false} AppendRepresents(ss: seq<Setting>, t: Table, s: Setting)
    requires Represents(ss, t) && s.id !in t
    ensures Represents(ss + [s], t[s.id := s.status])
  {
    var more, t' := ss + [s], t[s.id := s.status];
    forall id | id in t'
      ensures exists i :: 0 <= i < |more| && more[i].id == id
    {
      if id == s.id {
        assert more[|ss|].id == id;
      } else {
        var i :| 0 <= i < |ss| && ss[i].id == id;
        assert more[i].id == id;
      }
    }
  }

  /** Saving distinct settings never conflicts, and the table then holds exactly them. */
  lemma {:induction false} SaveRepresents(ss: seq<Setting>)
    requires Distinct(ss)
    ensures Save(ss).Some? && Represents(ss, Save(ss).value)
  {
    if ss != [] {
      var before, s := ss[..|ss| - 1], ss[|ss| - 1];
      SaveRepresents(before);
      AppendRepresents(before, Save(before).value, s);
      assert before + [s] == ss;
    }
  }

  /** The key is needed: saving succeeds exactly when the ids are distinct. */
  lemma {:induction false} SaveConflictsExactlyWhen(ss: seq<Setting>)
    ensures Save(ss).Some? <==> Distinct(ss)
  {
    if Distinct(ss) {
      SaveRepresents(ss);
    } else {
      var before, s := ss[..|ss| - 1], ss[|ss| - 1];
      SaveConflictsExactlyWhen(before);
      if Distinct(before) {
        SaveRepresents(before);
        var i :| 0 <= i < |before| && before[i].id == s.id;
        assert s.id in Save(before).value;
      }
    }
  }

  /** A table determines its settings up to order. */
  lemma {:induction false} RepresentsUnique(ss: seq<Setting>, t: Table, t': Table)
    requires Represents(ss, t) && Represents(ss, t')
    ensures t == t'
  {
    assert forall id :: id in t <==> id in t';
    assert forall id :: id in t ==> t[id] == t'[id];
  }

  /** A command changes its caller's entry and no other. */
  lemma {:induction false} ArmChangesOneEntry(ss: seq<Setting>, t: Table, id: int, status: nat)
    requires Represents(ss, t)
    ensures Represents(Arm(ss, id, status), t[id := status])
  {
    var i := Position(ss, id);
    if i == |ss| {
      AppendRepresents(ss, t, Setting(id, status));
    } else {
      var ss', t' := Arm(ss, id, status), t[id := status];
      forall key | key in t'
        ensures exists k :: 0 <= k < |ss'| && ss'[k].id == key
      {
        var k :| 0 <= k < |ss| && ss[k].id == key;
        assert ss'[k].id == key;
      }
    }
  }

  ghost predicate InAgreement(st: Store) {
    Represents(st.memory, st.table)
  }

  lemma {:induction false} SavedAgrees(st: Store, memory: seq<Setting>, t: Table)
    requires Represents(memory, t)
    ensures Save(memory) == Some(t) && Saved(st, memory) == Store(memory, t)
  {
    SaveRepresents(memory);
    RepresentsUnique(memory, Save(memory).value, t);
  }

  /**
   Every event keeps memory and table in agreement and changes the caller's status only:
   to the one asked for, to the default, or, on restart, not at all.
   */
  lemma {:induction false} StepAgrees(st: Store, e: Event)
    requires InAgreement(st)
    ensures InAgreement(Step(st, e))
    ensures Step(st, e).table ==
              match e
              case ArmCommand(id, command) =>
                if ArmStatus(command).Some? then st.table[id := ArmStatus(command).value] else st.table
              case DisarmCommand(id) => if id in st.table then st.table[id := DEFAULT] else st.table
              case Restart(_) => st.table
  {
    match e {
      case ArmCommand(id, command) =>
        if ArmStatus(command).Some? {
          ArmChangesOneEntry(st.memory, st.table, id, ArmStatus(command).value);
          SavedAgrees(st, Arm(st.memory, id, ArmStatus(command).value), st.table[id := ArmStatus(command).value]);
        }
      case DisarmCommand(id) =>
        if Position(st.memory, id) < |st.memory| {
          ArmChangesOneEntry(st.memory, st.table, id, DEFAULT);
          SavedAgrees(st, Disarm(st.memory, id), st.table[id := DEFAULT]);
        }
      case Restart(rows) =>
    }
  }

  lemma {:induction false} EveryRunAgrees(st: Store, es: seq<Event>)
    requires InAgreement(st)
    ensures InAgreement(Run(st, es))
  {
    if es != [] {
      EveryRunAgrees(st, es[..|es| - 1]);
      StepAgrees(Run(st, es[..|es| - 1]), es[|es| - 1]);
    }
  }

  function Lowered(s: string): string {
    seq(|s|, i requires 0 <= i < |s| => Text.LowerChar(s[i]))
  }

  /** The table after one command of a user: armed is 1, paranoid 2, insane 3, disarmed 0. */
  function Commanded(t: Table, e: Event): Table {
    match e
    case ArmCommand(id, command) =>
      if |command| <= 1 then t[id := 1]
      else if Lowered(command[1]) == "paranoid" then t[id := 2]
      else if Lowered(command[1]) == "insane" then t[id := 3]
      else t
    case DisarmCommand(id) => if id in t then t[id := 0] else t
    case Restart(_) => t
  }

  function AllCommanded(es: seq<Event>): Table {
    if es == [] then map[] else Commanded(AllCommanded(es[..|es| - 1]), es[|es| - 1])
  }

  lemma {:induction false} SameWhenLowered(a: string, b: string)
    requires Lowered(b) == b
    ensures SameIgnoringCase(a, b) <==> Lowered(a) == b
  {
    if SameIgnoringCase(a, b) {
      forall i | 0 <= i < |a|
        ensures Lowered(a)[i] == b[i]
      {
        assert Lowered(b)[i] == b[i];
      }
    } else if |a| == |b| {
      var i :| 0 <= i < |a| && Text.LowerChar(a[i]) != Text.LowerChar(b[i]);
      assert Lowered(a)[i] != Lowered(b)[i];
    }
  }

  lemma {:induction false} StepCommands(st: Store, e: Event)
    requires InAgreement(st)
    ensures Step(st, e).table == Commanded(st.table, e)
  {
    StepAgrees(st, e);
    if e.ArmCommand? && |e.command| > 1 {
      SameWhenLowered(e.command[1], "paranoid");
      SameWhenLowered(e.command[1], "insane");
    }
  }

  /** In every run, restarts included, each user's status is what their last effective command says. */
  lemma {:induction false} EveryRunObeys(es: seq<Event>)
    ensures Run(Store([], map[]), es).table == AllCommanded(es)
  {
    if es != [] {
      EveryRunObeys(es[..|es| - 1]);
      EveryRunAgrees(Store([], map[]), es[..|es| - 1]);
      StepCommands(Run(Store([], map[]), es[..|es| - 1]), es[|es| - 1]);
    }
  }

  /** Restoring what was saved, in whatever order the rows come, gives back the same mapping. */
  lemma {:induction false} RestoreAfterSave(ss: seq<Setting>, rows: seq<Setting>, id: int)
    requires Distinct(ss) && Save(ss).Some? && Represents(rows, Save(ss).value)
    ensures (exists i :: 0 <= i < |ss| && ss[i].id == id) <==> (exists j :: 0 <= j < |rows| && rows[j].id == id)
    ensures forall i, j :: 0 <= i < |ss| && 0 <= j < |rows| && ss[i].id == rows[j].id ==> ss[i] == rows[j]
  {
    SaveRepresents(ss);
    var t := Save(ss).value;
    if i :| 0 <= i < |ss| && ss[i].id == id {
      assert id in t;
    }
    if j :| 0 <= j < |rows| && rows[j].id == id {
      assert id in t;
    }
  }
}

/** The settings part of the Application object. */
module Settings {
  import opened Wrappers
  import opened SettingsModel

  class Application {
    var userSettings: seq<Setting>
    var table: Table

    ghost function State(): Store
      reads this
    {
      Store(userSettings, table)
    }

    ghost predicate Valid()
      reads this
    {
      InAgreement(State())
    }

    constructor ()
      ensures State() == Store([], map[]) && Valid()
    {
      userSettings, table := [], map[];
    }

    /** The loops that look for a user's entry. */
    method Find(id: int) returns (i: nat)
      ensures i == Position(userSettings, id)
    {
      i := 0;
      while i < |userSettings| && userSettings[i].id != id
        invariant 0 <= i <= |userSettings|
        invariant forall j :: 0 <= j < i ==> userSettings[j].id != id
      {
        i := i + 1;
      }
    }

    /** dbSaveSettings: false on a conflict of keys. */
    method DbSaveSettings() returns (ok: bool)
      modifies `table
      ensures ok == Save(userSettings).Some?
      ensures ok ==> table == Save(userSettings).value
    {
      table := map[];
      for i := 0 to |userSettings|
        invariant InsertAll(map[], userSettings[..i]) == Some(table)
      {
        assert userSettings[..i + 1][..i] == userSettings[..i];
        var s := userSettings[i];
        if s.id in table {
          ConflictRemains(userSettings, i + 1);
          return false;
        }
        table := table[s.id := s.status];
      }
      assert userSettings[..|userSettings|] == userSettings;
      return true;
    }

    static lemma {:induction false} ConflictRemains(ss: seq<Setting>, k: nat)
      requires k <= |ss| && Save(ss[..k]).None?
      ensures Save(ss).None?
      decreases |ss|
    {
      if k < |ss| {
        assert ss[..|ss| - 1][..k] == ss[..k];
        ConflictRemains(ss[..|ss| - 1], k);
      } else {
        assert ss[..k] == ss;
      }
    }

    method HandleArmCommand(id: int, command: seq<string>)
      requires Valid()
      modifies this
      ensures Valid() && State() == Step(old(State()), ArmCommand(id, command))
    {
      StepAgrees(State(), ArmCommand(id, command));
      var status := ArmStatus(command);
      if status.None? {
        return;
      }
      var i := Find(id);
      if i < |userSettings| {
        userSettings := userSettings[i := Setting(id, status.value)];
      } else {
        userSettings := userSettings + [Setting(id, status.value)];
      }
      ArmChangesOneEntry(old(userSettings), old(table), id, status.value);
      SavedAgrees(State(), userSettings, old(table)[id := status.value]);
      var ok := DbSaveSettings();
    }

    method HandleDisarmCommand(id: int)
      requires Valid()
      modifies this
      ensures Valid() && State() == Step(old(State()), DisarmCommand(id))
    {
      StepAgrees(State(), DisarmCommand(id));
      var i := Find(id);
      if i < |userSettings| {
        userSettings := userSettings[i := Setting(id, DEFAULT)];
        ArmChangesOneEntry(old(userSettings), old(table), id, DEFAULT);
        SavedAgrees(State(), userSettings, old(table)[id := DEFAULT]);
        var ok := DbSaveSettings();
      }
    }

    /** `rows` is what SELECT returns. */
    method DbRestoreSettings(rows: seq<Setting>)
      requires Represents(rows, table)
      modifies `userSettings
      ensures Valid() && State() == Step(old(State()), Restart(rows))
    {
      userSettings := [];
      for i := 0 to |rows|
        invariant userSettings == rows[..i]
      {
        userSettings := userSettings + [rows[i]];
      }
    }
  }
}

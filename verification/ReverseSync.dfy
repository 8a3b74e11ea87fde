/** The reverse sync: the variables of a cluster object are mirrored into the portal's records, except where a record was
    touched within the quiet period. */
module ReverseSync {
  import opened Wrappers

  /** A Variable or Secret record of one scope, with the time of its last write. */
  datatype Record = Record(id: nat, name: string, isSecret: bool, value: Option<string>, written: int)

  datatype State = State(records: seq<Record>, next: nat)

  /** An entry of `spec.variables`, as it comes from the cluster. */
  datatype Variable = Variable(name: string, value: Option<string>)

  /** Ten minutes, in seconds. */
  const QUIET: int := 600

  // ---- the two dictionaries ----

  function OrEmpty(value: Option<string>): string {
    if value.Some? then value.value else ""
  }

  /** `desired`: entries without a name are skipped, the last one of a name counts. */
  function Desired(variables: seq<Variable>): map<string, string> {
    if variables == [] then map[]
    else
      var front, v := Desired(variables[..|variables| - 1]), variables[|variables| - 1];
      if v.name != "" then front[v.name := OrEmpty(v.value)] else front
  }

  /** The names of `desired`, in the order of first insertion. */
  function DesiredNames(variables: seq<Variable>): seq<string> {
    if variables == [] then []
    else
      var front, v := DesiredNames(variables[..|variables| - 1]), variables[|variables| - 1];
      if v.name != "" && v.name !in front then front + [v.name] else front
  }

  /** `existing`: for each name, the last variable record of it. */
  function Existing(records: seq<Record>): map<string, Record> {
    if records == [] then map[]
    else
      var front, r := Existing(records[..|records| - 1]), records[|records| - 1];
      if r.isSecret then front else front[r.name := r]
  }

  function ExistingNames(records: seq<Record>): seq<string> {
    if records == [] then []
    else
      var front, r := ExistingNames(records[..|records| - 1]), records[|records| - 1];
      if !r.isSecret && r.name !in front then front + [r.name] else front
  }

  predicate Unique<T(==)>(s: seq<T>) {
    forall i, j :: 0 <= i < j < |s| ==> s[i] != s[j]
  }

  lemma {:induction false} DesiredKeys(variables: seq<Variable>)
    ensures Unique(DesiredNames(variables))
    ensures forall n :: n in DesiredNames(variables) <==> n in Desired(variables)
  {
    if variables != [] { DesiredKeys(variables[..|variables| - 1]); }
  }

  lemma {:induction false} ExistingKeys(records: seq<Record>)
    ensures Unique(ExistingNames(records))
    ensures forall n :: n in ExistingNames(records) <==> n in Existing(records)
  {
    if records != [] { ExistingKeys(records[..|records| - 1]); }
  }

  // ---- one sync ----

  /** The record is the one that `existing` holds for its name. */
  predicate Mirrors(r: Record, existing: map<string, Record>) {
    !r.isSecret && r.name in existing && existing[r.name].id == r.id
  }

  predicate IsOld(r: Record, now: int) {
    r.written < now - QUIET
  }

  /** What becomes of a record once the names of `written` and of `dropped` have been dealt with. */
  function Fate(r: Record, existing: map<string, Record>, desired: map<string, string>, now: int,
                written: set<string>, dropped: set<string>): Option<Record>
  {
    if !Mirrors(r, existing) || !IsOld(r, now) then Some(r)
    else if r.name in desired then
      if r.name in written && r.value != Some(desired[r.name])
      then Some(r.(value := Some(desired[r.name]), written := now)) else Some(r)
    else if r.name in dropped then None else Some(r)
  }

  function Fates(records: seq<Record>, existing: map<string, Record>, desired: map<string, string>, now: int,
                 written: set<string>, dropped: set<string>): seq<Record>
  {
    if records == [] then []
    else
      var last := Fate(records[|records| - 1], existing, desired, now, written, dropped);
      Fates(records[..|records| - 1], existing, desired, now, written, dropped) + if last.Some? then [last.value] else []
  }

  /** The records that are created, for the names that have none. */
  function Created(names: seq<string>, existing: map<string, Record>, desired: map<string, string>, next: nat, now: int): seq<Record> {
    if names == [] then []
    else
      var front, name := Created(names[..|names| - 1], existing, desired, next, now), names[|names| - 1];
      if name in existing || name !in desired then front
      else front + [Record(next + |front|, name, false, Some(desired[name]), now)]
  }

  /** `_adomi_sync_variables` */
  function Sync(s: State, variables: seq<Variable>, now: int): State {
    var desired, existing := Desired(variables), Existing(s.records);
    var created := Created(DesiredNames(variables), existing, desired, s.next, now);
    State(Fates(s.records, existing, desired, now, desired.Keys, existing.Keys) + created, s.next + |created|)
  }

  // ---- the loops ----

  predicate WellFormed(s: State) {
    && (forall i, j :: 0 <= i < j < |s.records| ==> s.records[i].id != s.records[j].id)
    && (forall i :: 0 <= i < |s.records| ==> s.records[i].id < s.next)
  }

  /** `rec.write({"value": value})` */
  function WriteRecord(records: seq<Record>, id: nat, value: string, now: int): seq<Record> {
    if records == [] then []
    else
      var r := records[|records| - 1];
      WriteRecord(records[..|records| - 1], id, value, now)
      + [if r.id == id then r.(value := Some(value), written := now) else r]
  }

  /** `rec.unlink()` */
  function UnlinkRecord(records: seq<Record>, id: nat): seq<Record> {
    if records == [] then []
    else
      var r := records[|records| - 1];
      UnlinkRecord(records[..|records| - 1], id) + if r.id == id then [] else [r]
  }

  // What one turn of each loop does to the fates.

  /** A name without a record: nothing changes for the records there are. */
  lemma {:induction false} NoRecordNoChange(records: seq<Record>, existing: map<string, Record>, desired: map<string, string>,
                                            now: int, written: set<string>, dropped: set<string>, name: string)
    requires name !in existing
    ensures Fates(records, existing, desired, now, written + {name}, dropped)
            == Fates(records, existing, desired, now, written, dropped)
  {
    if records != [] {
      NoRecordNoChange(records[..|records| - 1], existing, desired, now, written, dropped, name);
    }
  }

  /** The records hold the record that `existing` has for the name, and nothing else under its id. */
  predicate Holds(records: seq<Record>, existing: map<string, Record>, name: string) {
    && name in existing && existing[name].name == name && !existing[name].isSecret
    && forall i :: 0 <= i < |records| && records[i].id == existing[name].id ==> records[i] == existing[name]
  }

  lemma FateWritten(records: seq<Record>, r: Record, existing: map<string, Record>, desired: map<string, string>,
                    now: int, written: set<string>, name: string)
    requires Holds(records, existing, name) && name in desired && name !in written && r in records
    ensures var rec, before := existing[name], Fate(r, existing, desired, now, written, {});
            var after := Fate(r, existing, desired, now, written + {name}, {});
            && before.Some? && before.value.id == r.id
            && after == if rec.value != Some(desired[name]) && IsOld(rec, now) && r.id == rec.id
                        then Some(before.value.(value := Some(desired[name]), written := now)) else before
  {
  }

  lemma {:induction false} OneWritten(records: seq<Record>, existing: map<string, Record>, desired: map<string, string>,
                                      now: int, written: set<string>, name: string)
    requires Holds(records, existing, name) && name in desired && name !in written
    ensures var rec := existing[name];
            Fates(records, existing, desired, now, written + {name}, {})
            == if rec.value != Some(desired[name]) && IsOld(rec, now)
               then WriteRecord(Fates(records, existing, desired, now, written, {}), rec.id, desired[name], now)
               else Fates(records, existing, desired, now, written, {})
  {
    if records != [] {
      var front, r, rec := records[..|records| - 1], records[|records| - 1], existing[name];
      FateWritten(records, r, existing, desired, now, written, name);
      OneWritten(front, existing, desired, now, written, name);
      hide Fate, IsOld, Holds, WriteRecord;
      var f := Fates(front, existing, desired, now, written, {});
      WriteLast(f, Fate(r, existing, desired, now, written, {}).value, rec.id, desired[name], now);
    }
  }

  lemma WriteLast(records: seq<Record>, r: Record, id: nat, value: string, now: int)
    ensures WriteRecord(records + [r], id, value, now)
            == WriteRecord(records, id, value, now) + [if r.id == id then r.(value := Some(value), written := now) else r]
  {
    assert (records + [r])[..|records + [r]| - 1] == records;
  }

  lemma UnlinkLast(records: seq<Record>, r: Record, id: nat)
    ensures UnlinkRecord(records + [r], id) == UnlinkRecord(records, id) + if r.id == id then [] else [r]
  {
    assert (records + [r])[..|records + [r]| - 1] == records;
  }

  lemma FateDropped(records: seq<Record>, r: Record, existing: map<string, Record>, desired: map<string, string>,
                    now: int, dropped: set<string>, name: string)
    requires Holds(records, existing, name) && name !in dropped && r in records
    ensures var rec, before := existing[name], Fate(r, existing, desired, now, desired.Keys, dropped);
            && (before.Some? ==> before.value.id == r.id)
            && (r.id == rec.id ==> before.Some?)
            && Fate(r, existing, desired, now, desired.Keys, dropped + {name})
               == if name !in desired && IsOld(rec, now) && r.id == rec.id then None else before
  {
  }

  lemma {:induction false} OneDropped(records: seq<Record>, existing: map<string, Record>, desired: map<string, string>,
                                      now: int, dropped: set<string>, name: string)
    requires Holds(records, existing, name) && name !in dropped
    ensures var rec := existing[name];
            Fates(records, existing, desired, now, desired.Keys, dropped + {name})
            == if name !in desired && IsOld(rec, now)
               then UnlinkRecord(Fates(records, existing, desired, now, desired.Keys, dropped), rec.id)
               else Fates(records, existing, desired, now, desired.Keys, dropped)
  {
    if records != [] {
      var front, r, rec := records[..|records| - 1], records[|records| - 1], existing[name];
      FateDropped(records, r, existing, desired, now, dropped, name);
      OneDropped(front, existing, desired, now, dropped, name);
      hide Fate, IsOld, Holds, UnlinkRecord;
      var f := Fates(front, existing, desired, now, desired.Keys, dropped);
      var last := Fate(r, existing, desired, now, desired.Keys, dropped);
      if last.Some? { UnlinkLast(f, last.value, rec.id); }
      assert f + [] == f && UnlinkRecord(f, rec.id) + [] == UnlinkRecord(f, rec.id);
    }
  }

  /** Writing or unlinking an old record does not touch the new ones. */
  lemma {:induction false} NewNotWritten(records: seq<Record>, created: seq<Record>, id: nat, value: string, now: int)
    requires forall i :: 0 <= i < |created| ==> created[i].id != id
    ensures WriteRecord(records + created, id, value, now) == WriteRecord(records, id, value, now) + created
    decreases |created|
  {
    hide WriteRecord;
    if created == [] {
      assert records + created == records;
    } else {
      var front, r := created[..|created| - 1], created[|created| - 1];
      NewNotWritten(records, front, id, value, now);
      assert records + created == (records + front) + [r] && front + [r] == created;
      WriteLast(records + front, r, id, value, now);
    }
  }

  lemma {:induction false} NewNotUnlinked(records: seq<Record>, created: seq<Record>, id: nat)
    requires forall i :: 0 <= i < |created| ==> created[i].id != id
    ensures UnlinkRecord(records + created, id) == UnlinkRecord(records, id) + created
    decreases |created|
  {
    hide UnlinkRecord;
    if created == [] {
      assert records + created == records;
    } else {
      var front, r := created[..|created| - 1], created[|created| - 1];
      NewNotUnlinked(records, front, id);
      assert records + created == (records + front) + [r] && front + [r] == created;
      UnlinkLast(records + front, r, id);
    }
  }

  lemma CreatedNext(names: seq<string>, name: string, existing: map<string, Record>, desired: map<string, string>, next: nat, now: int)
    requires name in desired
    ensures var front := Created(names, existing, desired, next, now);
            Created(names + [name], existing, desired, next, now)
            == if name in existing then front else front + [Record(next + |front|, name, false, Some(desired[name]), now)]
  {
    assert (names + [name])[..|names + [name]| - 1] == names;
  }

  predicate Numbered(created: seq<Record>, next: nat) {
    forall i :: 0 <= i < |created| ==> created[i].id == next + i
  }

  lemma {:induction false} CreatedIds(names: seq<string>, existing: map<string, Record>, desired: map<string, string>, next: nat, now: int)
    ensures Numbered(Created(names, existing, desired, next, now), next)
  {
    if names != [] { CreatedIds(names[..|names| - 1], existing, desired, next, now); }
  }

  function Elements(names: seq<string>): set<string> {
    set n | n in names
  }

  lemma ElementsSnoc(names: seq<string>, name: string)
    ensures Elements(names + [name]) == Elements(names) + {name}
  {
    assert forall n :: n in names + [name] <==> n in names || n == name;
  }

  lemma {:induction false} ExistingHolds(records: seq<Record>, all: seq<Record>, name: string)
    requires records <= all && forall i, j :: 0 <= i < j < |all| ==> all[i].id != all[j].id
    requires name in Existing(records)
    ensures Holds(all, Existing(records), name) && Existing(records)[name] in records
  {
    var front, r := records[..|records| - 1], records[|records| - 1];
    if !r.isSecret && r.name == name {
      assert all[|records| - 1] == r;
    } else {
      ExistingHolds(front, all, name);
      assert records == front + [r];
    }
  }

  /** Dealing with one more desired name: a record more, a record written, or nothing. */
  lemma OneMoreDesired(s: State, existing: map<string, Record>, desired: map<string, string>, now: int, names: seq<string>, name: string)
    requires WellFormed(s) && existing == Existing(s.records) && name in desired && name !in names
    ensures var created := Created(names, existing, desired, s.next, now);
            var records := Fates(s.records, existing, desired, now, Elements(names), {}) + created;
            var created' := Created(names + [name], existing, desired, s.next, now);
            && |created'| == |created| + (if name in existing then 0 else 1)
            && Fates(s.records, existing, desired, now, Elements(names + [name]), {}) + created'
               == if name !in existing then records + [Record(s.next + |created|, name, false, Some(desired[name]), now)]
                  else if existing[name].value != Some(desired[name]) && existing[name].written < now - QUIET
                  then WriteRecord(records, existing[name].id, desired[name], now) else records
  {
    hide Fates, Created, WriteRecord, Existing, Holds;
    var done, created := Elements(names), Created(names, existing, desired, s.next, now);
    ElementsSnoc(names, name);
    CreatedNext(names, name, existing, desired, s.next, now);
    if name !in existing {
      NoRecordNoChange(s.records, existing, desired, now, done, {}, name);
    } else {
      var rec := existing[name];
      ExistingHolds(s.records, s.records, name);
      HeldId(s.records, s.next, rec);
      OneWritten(s.records, existing, desired, now, done, name);
      CreatedIds(names, existing, desired, s.next, now);
      NewNotWritten(Fates(s.records, existing, desired, now, done, {}), created, rec.id, desired[name], now);
    }
  }

  /** The portal's records of one scope. */
  class Scope {
    var records: seq<Record>
    var next: nat

    function View(): State
      reads this
    {
      State(records, next)
    }

    constructor ()
      ensures View() == State([], 0)
    {
      records, next := [], 0;
    }

    method SyncVariables(variables: seq<Variable>, now: int)
      requires WellFormed(View())
      modifies this
      ensures View() == Sync(old(View()), variables, now)
    {
      var desired: map<string, string>, desiredNames: seq<string> := map[], [];
      for i := 0 to |variables|
        invariant desired == Desired(variables[..i]) && desiredNames == DesiredNames(variables[..i])
        invariant View() == old(View())
      {
        assert variables[..i + 1][..i] == variables[..i];
        var v := variables[i];
        if v.name != "" {
          desired := desired[v.name := OrEmpty(v.value)];
          if v.name !in desiredNames { desiredNames := desiredNames + [v.name]; }
        }
      }
      assert variables[..|variables|] == variables;
      var existing: map<string, Record>, existingNames: seq<string> := map[], [];
      for i := 0 to |records|
        invariant existing == Existing(records[..i]) && existingNames == ExistingNames(records[..i])
        invariant View() == old(View())
      {
        assert records[..i + 1][..i] == records[..i];
        var r := records[i];
        if !r.isSecret {
          existing := existing[r.name := r];
          if r.name !in existingNames { existingNames := existingNames + [r.name]; }
        }
      }
      assert records[..|records|] == records;
      hide Fates, Created, Existing, Desired, DesiredNames, ExistingNames;
      DesiredKeys(variables);
      ExistingKeys(records);
      ghost var start := records;
      ghost var created := Created(desiredNames, existing, desired, next, now);
      CreatedIds(desiredNames, existing, desired, next, now);
      WriteDesired(desired, desiredNames, existing, now);
      assert Elements(desiredNames) == desired.Keys;
      DropOthers(desired, existing, existingNames, now, start, created);
      assert Elements(existingNames) == existing.Keys;
    }
  
    /** The loop over the desired values: create what is missing, write what differs and is old. */
    method WriteDesired(desired: map<string, string>, names: seq<string>, existing: map<string, Record>, now: int)
      requires WellFormed(View()) && existing == Existing(records) && Unique(names) && forall n :: n in names ==> n in desired
      modifies this
      ensures var created := Created(names, existing, desired, old(next), now);
              View() == State(Fates(old(records), existing, desired, now, Elements(names), {}) + created, old(next) + |created|)
    {
      NoElements();
      hide Fates, Created, WriteRecord, Existing, Holds, Unique, WellFormed, Elements;
      ghost var start := records;
      NothingDone(records, existing, desired, now, {});
      NoneCreated(existing, desired, next, now);
      assert names[..0] == [];
      for i := 0 to |names|
        invariant records == Fates(start, existing, desired, now, Elements(names[..i]), {})
                             + Created(names[..i], existing, desired, old(next), now)
        invariant next == old(next) + |Created(names[..i], existing, desired, old(next), now)|
      {
        var name := names[i];
        assert names[..i + 1] == names[..i] + [name];
        NotAmongFirst(names, i);
        OneMoreDesired(State(start, old(next)), existing, desired, now, names[..i], name);
        if name !in existing {
          records := records + [Record(next, name, false, Some(desired[name]), now)];
          next := next + 1;
        } else {
          var rec := existing[name];
          if rec.value != Some(desired[name]) && rec.written < now - QUIET {
            records := WriteRecord(records, rec.id, desired[name], now);
          }
        }
      }
      assert names[..|names|] == names;
    }

    /** The loop over the existing records: unlink what is old and not desired. */
    method DropOthers(desired: map<string, string>, existing: map<string, Record>, names: seq<string>, now: int,
                      ghost start: seq<Record>, ghost created: seq<Record>)
      requires existing == Existing(start) && Unique(names) && forall n :: n in names ==> n in existing
      requires forall i, j :: 0 <= i < j < |start| ==> start[i].id != start[j].id
      requires forall i, j :: 0 <= i < |start| && 0 <= j < |created| ==> start[i].id != created[j].id
      requires records == Fates(start, existing, desired, now, desired.Keys, {}) + created
      modifies this`records
      ensures records == Fates(start, existing, desired, now, desired.Keys, Elements(names)) + created
    {
      hide Fates, Existing, UnlinkRecord;
      assert names[..0] == [] && Elements(names[..0]) == {};
      for i := 0 to |names|
        invariant records == Fates(start, existing, desired, now, desired.Keys, Elements(names[..i])) + created
      {
        ghost var done := Elements(names[..i]);
        var name := names[i];
        assert names[..i + 1] == names[..i] + [name];
        ElementsSnoc(names[..i], name);
        assert name !in done;
        var rec := existing[name];
        ExistingHolds(start, start, name);
        OneDropped(start, existing, desired, now, done, name);
        NewNotUnlinked(Fates(start, existing, desired, now, desired.Keys, done), created, rec.id);
        if name !in desired && rec.written < now - QUIET {
          records := UnlinkRecord(records, rec.id);
        }
      }
      assert names[..|names|] == names;
    }
  }

  lemma NoElements()
    ensures Elements([]) == {}
  {
  }

  lemma NotAmongFirst(names: seq<string>, i: nat)
    requires Unique(names) && i < |names|
    ensures names[i] !in names[..i]
  {
  }

  lemma NoneCreated(existing: map<string, Record>, desired: map<string, string>, next: nat, now: int)
    ensures Created([], existing, desired, next, now) == []
  {
  }

  lemma HeldId(records: seq<Record>, next: nat, r: Record)
    requires r in records && forall i :: 0 <= i < |records| ==> records[i].id < next
    ensures r.id < next
  {
  }

  lemma {:induction false} NothingDone(records: seq<Record>, existing: map<string, Record>, desired: map<string, string>, now: int,
                                       written: set<string>)
    requires written == {}
    ensures Fates(records, existing, desired, now, written, {}) == records
  {
    if records != [] { NothingDone(records[..|records| - 1], existing, desired, now, written); }
  }

  // ---- what a sync protects ----

  lemma {:induction false} FateIsIn(records: seq<Record>, existing: map<string, Record>, desired: map<string, string>, now: int,
                                    written: set<string>, dropped: set<string>, r: Record)
    requires r in records && Fate(r, existing, desired, now, written, dropped).Some?
    ensures Fate(r, existing, desired, now, written, dropped).value in Fates(records, existing, desired, now, written, dropped)
  {
    hide Fate;
    var front, last := records[..|records| - 1], records[|records| - 1];
    if r in front { FateIsIn(front, existing, desired, now, written, dropped, r); }
  }

  lemma {:induction false} FatesComeFrom(records: seq<Record>, existing: map<string, Record>, desired: map<string, string>, now: int,
                                         written: set<string>, dropped: set<string>, x: Record) returns (r: Record)
    requires x in Fates(records, existing, desired, now, written, dropped)
    ensures r in records && Fate(r, existing, desired, now, written, dropped) == Some(x)
  {
    hide Fate;
    var front, last := records[..|records| - 1], records[|records| - 1];
    if x in Fates(front, existing, desired, now, written, dropped) {
      r := FatesComeFrom(front, existing, desired, now, written, dropped, x);
    } else {
      r := last;
    }
  }

  /** A record that is not old, and a secret of any age, is left exactly as it is, whatever the cluster's spec says. */
  lemma SyncProtects(s: State, variables: seq<Variable>, now: int, r: Record)
    requires r in s.records && (r.isSecret || r.written >= now - 600)
    ensures r in Sync(s, variables, now).records
  {
    var desired, existing := Desired(variables), Existing(s.records);
    FateIsIn(s.records, existing, desired, now, desired.Keys, existing.Keys, r);
  }

  // ---- runs of portal edits and syncs ----

  datatype Event =
    | Create(name: string, isSecret: bool, value: Option<string>, at: int)
    | Write(id: nat, text: string, at: int)
    | Remove(id: nat)
    | Synced(variables: seq<Variable>, at: int)

  function Play(s: State, e: Event): State {
    match e
    case Create(name, isSecret, value, at) =>
      State(s.records + [Record(s.next, name, isSecret, value, at)], s.next + 1)
    case Write(id, value, at) => s.(records := WriteRecord(s.records, id, value, at))
    case Remove(id) => s.(records := UnlinkRecord(s.records, id))
    case Synced(variables, at) => Sync(s, variables, at)
  }

  function PlayAll(s: State, events: seq<Event>): State
    decreases |events|
  {
    if |events| == 0 then s else PlayAll(Play(s, events[0]), events[1..])
  }

  lemma {:induction false} OthersKeep(records: seq<Record>, id: nat, value: string, now: int, r: Record)
    requires r in records && r.id != id
    ensures r in WriteRecord(records, id, value, now) && r in UnlinkRecord(records, id)
  {
    var front, last := records[..|records| - 1], records[|records| - 1];
    if r in front { OthersKeep(front, id, value, now, r); }
  }

  /** The event does not edit the record, and a sync comes before the record's quiet period is over. */
  predicate Spares(e: Event, r: Record) {
    && (e.Write? || e.Remove? ==> e.id != r.id)
    && (e.Synced? ==> r.isSecret || e.at <= r.written + QUIET)
  }

  /** Over any run of portal edits of other records and of syncs against arbitrary, stale specs, a record written at time t
      is neither changed nor removed before t plus the quiet period. */
  lemma {:induction false} QuietPeriodProtects(s: State, events: seq<Event>, r: Record)
    requires r in s.records && forall e :: e in events ==> Spares(e, r)
    ensures r in PlayAll(s, events).records
    decreases |events|
  {
    hide Sync, WriteRecord, UnlinkRecord;
    if |events| > 0 {
      assert Spares(events[0], r);
      match events[0] {
        case Create(_, _, _, _) =>
        case Write(id, value, at) => OthersKeep(s.records, id, value, at, r);
        case Remove(id) => OthersKeep(s.records, id, "", 0, r);
        case Synced(variables, at) => SyncProtects(s, variables, at, r);
      }
      QuietPeriodProtects(Play(s, events[0]), events[1..], r);
    }
  }

  // ---- distinct names, and convergence ----

  predicate DistinctVariables(records: seq<Record>) {
    forall i, j :: 0 <= i < j < |records| && !records[i].isSecret && !records[j].isSecret ==> records[i].name != records[j].name
  }

  /** The variable records are the desired variables, one each. */
  predicate Mirror(records: seq<Record>, desired: map<string, string>) {
    && DistinctVariables(records)
    && (forall i :: 0 <= i < |records| && !records[i].isSecret ==>
          records[i].name in desired && records[i].value == Some(desired[records[i].name]))
    && (forall n :: n in desired ==> HasVariable(records, n))
  }

  predicate HasVariable(records: seq<Record>, name: string) {
    exists i :: 0 <= i < |records| && !records[i].isSecret && records[i].name == name
  }

  lemma {:induction false} ExistingHas(records: seq<Record>, name: string)
    ensures name in Existing(records) <==> HasVariable(records, name)
    ensures name in Existing(records) ==>
              Existing(records)[name] in records && !Existing(records)[name].isSecret && Existing(records)[name].name == name
  {
    if records != [] {
      var front, last := records[..|records| - 1], records[|records| - 1];
      ExistingHas(front, name);
      if HasVariable(front, name) {
        var i :| 0 <= i < |front| && !front[i].isSecret && front[i].name == name;
        assert records[i] == front[i];
      }
    }
  }

  /** With distinct names and ids, each variable record is the one that `existing` has. */
  lemma ExistingIsIt(records: seq<Record>, r: Record)
    requires DistinctVariables(records) && r in records && !r.isSecret
    ensures r.name in Existing(records) && Existing(records)[r.name] == r
  {
    ExistingHas(records, r.name);
    var i :| 0 <= i < |records| && records[i] == r;
    assert HasVariable(records, r.name);
    var e := Existing(records)[r.name];
    var j :| 0 <= j < |records| && records[j] == e;
  }

  lemma {:induction false} FatesDistinct(records: seq<Record>, existing: map<string, Record>, desired: map<string, string>, now: int,
                                         written: set<string>, dropped: set<string>)
    requires DistinctVariables(records)
    ensures DistinctVariables(Fates(records, existing, desired, now, written, dropped))
  {
    if records != [] {
      var front, last := records[..|records| - 1], records[|records| - 1];
      FatesDistinct(front, existing, desired, now, written, dropped);
      var f := Fates(front, existing, desired, now, written, dropped);
      forall i | 0 <= i < |f| && !f[i].isSecret && !last.isSecret ensures f[i].name != last.name {
        var r := FatesComeFrom(front, existing, desired, now, written, dropped, f[i]);
        var k :| 0 <= k < |front| && front[k] == r;
        assert records[k] == r && records[|records| - 1] == last;
      }
    }
  }

  /** The created records: one for each desired name that has no record. */
  lemma {:induction false} CreatedAre(names: seq<string>, existing: map<string, Record>, desired: map<string, string>, next: nat, now: int)
    requires Unique(names)
    ensures var c := Created(names, existing, desired, next, now);
            && DistinctVariables(c)
            && (forall i :: 0 <= i < |c| ==> c[i].name in names && c[i].name !in existing && c[i].name in desired
                                             && !c[i].isSecret && c[i].value == Some(desired[c[i].name]))
            && (forall n :: n in names && n !in existing && n in desired ==> HasVariable(c, n))
  {
    if names != [] {
      var front, name := names[..|names| - 1], names[|names| - 1];
      CreatedAre(front, existing, desired, next, now);
      var c, d := Created(front, existing, desired, next, now), Created(names, existing, desired, next, now);
      forall n | n in names && n !in existing && n in desired ensures HasVariable(d, n) {
        if n in front {
          var i :| 0 <= i < |c| && !c[i].isSecret && c[i].name == n;
          assert d[i] == c[i];
        } else {
          assert d[|d| - 1].name == n;
        }
      }
    }
  }

  lemma JoinedDistinct(a: seq<Record>, b: seq<Record>)
    requires DistinctVariables(a) && DistinctVariables(b)
    requires forall x, y :: x in a && y in b && !x.isSecret && !y.isSecret ==> x.name != y.name
    ensures DistinctVariables(a + b)
  {
  }

  /** A sync keeps variable names distinct. */
  lemma SyncKeepsDistinct(s: State, variables: seq<Variable>, now: int)
    requires DistinctVariables(s.records)
    ensures DistinctVariables(Sync(s, variables, now).records)
  {
    var desired, existing := Desired(variables), Existing(s.records);
    var f := Fates(s.records, existing, desired, now, desired.Keys, existing.Keys);
    var c := Created(DesiredNames(variables), existing, desired, s.next, now);
    DesiredKeys(variables);
    FatesDistinct(s.records, existing, desired, now, desired.Keys, existing.Keys);
    CreatedAre(DesiredNames(variables), existing, desired, s.next, now);
    forall x, y | x in f && y in c && !x.isSecret && !y.isSecret ensures x.name != y.name {
      var r := FatesComeFrom(s.records, existing, desired, now, desired.Keys, existing.Keys, x);
      ExistingHas(s.records, r.name);
      assert HasVariable(s.records, r.name);
    }
    JoinedDistinct(f, c);
  }

  predicate AllOld(records: seq<Record>, now: int) {
    forall i :: 0 <= i < |records| && !records[i].isSecret ==> IsOld(records[i], now)
  }

  lemma HasIn(records: seq<Record>, r: Record)
    requires r in records && !r.isSecret
    ensures HasVariable(records, r.name)
  {
    var i :| 0 <= i < |records| && records[i] == r;
  }

  lemma HasJoined(a: seq<Record>, b: seq<Record>, name: string)
    ensures HasVariable(a + b, name) <==> HasVariable(a, name) || HasVariable(b, name)
  {
    if HasVariable(a, name) {
      var i :| 0 <= i < |a| && !a[i].isSecret && a[i].name == name;
      assert (a + b)[i] == a[i];
    }
    if HasVariable(b, name) {
      var i :| 0 <= i < |b| && !b[i].isSecret && b[i].name == name;
      assert (a + b)[|a| + i] == b[i];
    }
  }

  /** A name without a record gets one exactly when the spec has it: so a deleted variable comes back from a stale spec. */
  lemma AbsentNameReturnsIff(s: State, variables: seq<Variable>, now: int, name: string)
    requires !HasVariable(s.records, name)
    ensures HasVariable(Sync(s, variables, now).records, name) <==> name in Desired(variables)
  {
    var desired, existing := Desired(variables), Existing(s.records);
    var f := Fates(s.records, existing, desired, now, desired.Keys, existing.Keys);
    var c := Created(DesiredNames(variables), existing, desired, s.next, now);
    DesiredKeys(variables);
    ExistingHas(s.records, name);
    CreatedAre(DesiredNames(variables), existing, desired, s.next, now);
    HasJoined(f, c, name);
    if HasVariable(f, name) {
      var i :| 0 <= i < |f| && !f[i].isSecret && f[i].name == name;
      var r := FatesComeFrom(s.records, existing, desired, now, desired.Keys, existing.Keys, f[i]);
      HasIn(s.records, r);
    }
  }

  /** Every desired variable has a record after a sync. */
  lemma DesiredIsThere(s: State, variables: seq<Variable>, now: int, name: string)
    requires name in Desired(variables)
    ensures HasVariable(Sync(s, variables, now).records, name)
  {
    var desired, existing := Desired(variables), Existing(s.records);
    if HasVariable(s.records, name) {
      ExistingHas(s.records, name);
      var e := existing[name];
      FateIsIn(s.records, existing, desired, now, desired.Keys, existing.Keys, e);
      var x := Fate(e, existing, desired, now, desired.Keys, existing.Keys).value;
      HasIn(Fates(s.records, existing, desired, now, desired.Keys, existing.Keys), x);
      HasJoined(Fates(s.records, existing, desired, now, desired.Keys, existing.Keys),
                Created(DesiredNames(variables), existing, desired, s.next, now), name);
    } else {
      AbsentNameReturnsIff(s, variables, now, name);
    }
  }

  lemma OldRecordsFollow(s: State, variables: seq<Variable>, now: int)
    requires DistinctVariables(s.records) && AllOld(s.records, now)
    ensures Mirror(Sync(s, variables, now).records, Desired(variables))
  {
    var desired, existing := Desired(variables), Existing(s.records);
    var f := Fates(s.records, existing, desired, now, desired.Keys, existing.Keys);
    var c := Created(DesiredNames(variables), existing, desired, s.next, now);
    DesiredKeys(variables);
    SyncKeepsDistinct(s, variables, now);
    CreatedAre(DesiredNames(variables), existing, desired, s.next, now);
    var after: seq<Record> := f + c;
    forall i | 0 <= i < |after| && !after[i].isSecret
      ensures after[i].name in desired && after[i].value == Some(desired[after[i].name])
    {
      if i < |f| {
        var r := FatesComeFrom(s.records, existing, desired, now, desired.Keys, existing.Keys, f[i]);
        ExistingIsIt(s.records, r);
      }
    }
    forall n | n in desired ensures HasVariable(after, n) {
      DesiredIsThere(s, variables, now, n);
    }
  }

  lemma {:induction false} LastOfName(records: seq<Record>, name: string) returns (k: nat)
    requires HasVariable(records, name)
    ensures k < |records| && name in Existing(records) && Existing(records)[name] == records[k]
    ensures records[k].name == name && !records[k].isSecret
    ensures forall j :: k < j < |records| ==> records[j].isSecret || records[j].name != name
  {
    var front, last := records[..|records| - 1], records[|records| - 1];
    if !last.isSecret && last.name == name {
      k := |records| - 1;
    } else {
      var i :| 0 <= i < |records| && !records[i].isSecret && records[i].name == name;
      assert front[i] == records[i];
      k := LastOfName(front, name);
    }
  }

  /** A second record of a name is never looked at by the sync. */
  lemma DuplicatesStay(s: State, variables: seq<Variable>, now: int)
    requires WellFormed(s) && !DistinctVariables(s.records)
    ensures !Mirror(Sync(s, variables, now).records, Desired(variables))
  {
    var desired, existing := Desired(variables), Existing(s.records);
    var i, j :| 0 <= i < j < |s.records| && !s.records[i].isSecret && !s.records[j].isSecret && s.records[i].name == s.records[j].name;
    var r, name, after := s.records[i], s.records[i].name, Sync(s, variables, now).records;
    assert HasVariable(s.records, name);
    var k := LastOfName(s.records, name);
    FateIsIn(s.records, existing, desired, now, desired.Keys, existing.Keys, r);
    assert r in after;
    if name in desired {
      FateIsIn(s.records, existing, desired, now, desired.Keys, existing.Keys, s.records[k]);
      var x := Fate(s.records[k], existing, desired, now, desired.Keys, existing.Keys).value;
      assert x in after && x.id != r.id && x.name == name;
      TwoOfName(after, r, x);
    } else {
      var p :| 0 <= p < |after| && after[p] == r;
    }
  }

  lemma TwoOfName(records: seq<Record>, r: Record, x: Record)
    requires r in records && x in records && r.id != x.id && r.name == x.name && !r.isSecret && !x.isSecret
    ensures !DistinctVariables(records)
  {
    var p :| 0 <= p < |records| && records[p] == r;
    var q :| 0 <= q < |records| && records[q] == x;
    assert p < q || q < p;
  }

  /** Once every record is older than the quiet period, one sync makes the portal's variables those of the spec, exactly
      when no name had two records before. */
  lemma SyncConvergesIff(s: State, variables: seq<Variable>, now: int)
    requires WellFormed(s) && AllOld(s.records, now)
    ensures Mirror(Sync(s, variables, now).records, Desired(variables)) <==> DistinctVariables(s.records)
  {
    if DistinctVariables(s.records) {
      OldRecordsFollow(s, variables, now);
    } else {
      DuplicatesStay(s, variables, now);
    }
  }

  lemma {:induction false} FatesSame(records: seq<Record>, existing: map<string, Record>, desired: map<string, string>, now: int,
                                     written: set<string>, dropped: set<string>)
    requires forall r :: r in records ==> Fate(r, existing, desired, now, written, dropped) == Some(r)
    ensures Fates(records, existing, desired, now, written, dropped) == records
  {
    hide Fate;
    if records != [] { FatesSame(records[..|records| - 1], existing, desired, now, written, dropped); }
  }

  lemma {:induction false} NothingToCreate(names: seq<string>, existing: map<string, Record>, desired: map<string, string>, next: nat, now: int)
    requires forall n :: n in names ==> n in existing
    ensures Created(names, existing, desired, next, now) == []
  {
    if names != [] { NothingToCreate(names[..|names| - 1], existing, desired, next, now); }
  }

  /** From then on a sync against the same spec changes nothing, at any time. */
  lemma MirrorIsStable(s: State, variables: seq<Variable>, now: int)
    requires Mirror(s.records, Desired(variables))
    ensures Sync(s, variables, now) == s
  {
    var desired, existing := Desired(variables), Existing(s.records);
    DesiredKeys(variables);
    forall n | n in DesiredNames(variables) ensures n in existing {
      ExistingHas(s.records, n);
    }
    NothingToCreate(DesiredNames(variables), existing, desired, s.next, now);
    forall r | r in s.records ensures Fate(r, existing, desired, now, desired.Keys, existing.Keys) == Some(r) {
      var i :| 0 <= i < |s.records| && s.records[i] == r;
    }
    FatesSame(s.records, existing, desired, now, desired.Keys, existing.Keys);
  }

  /** Later syncs against the spec, as many as come, leave the portal as the first one has made it. */
  lemma {:induction false} ConvergedForGood(s: State, variables: seq<Variable>, times: seq<int>)
    requires Mirror(s.records, Desired(variables))
    ensures PlayAll(s, seq(|times|, i requires 0 <= i < |times| => Synced(variables, times[i]))) == s
    decreases |times|
  {
    var events := seq(|times|, i requires 0 <= i < |times| => Synced(variables, times[i]));
    if |times| > 0 {
      MirrorIsStable(s, variables, times[0]);
      assert events[1..] == seq(|times[1..]|, i requires 0 <= i < |times[1..]| => Synced(variables, times[1..][i]));
      ConvergedForGood(s, variables, times[1..]);
    }
  }

  // ---- what a mirrored record says ----

  /** No later entry has the name of this one. */
  predicate LastEntry(variables: seq<Variable>, i: nat) {
    && i < |variables| && variables[i].name != ""
    && forall j :: i < j < |variables| ==> variables[j].name != variables[i].name
  }

  /** An entry's value; one without a value counts as empty. */
  predicate Says(v: Variable, value: string) {
    if v.value.Some? then value == v.value.value else value == ""
  }

  lemma {:induction false} DesiredIsLast(variables: seq<Variable>, name: string) returns (i: nat)
    requires name in Desired(variables)
    ensures LastEntry(variables, i) && variables[i].name == name && Says(variables[i], Desired(variables)[name])
  {
    var n := |variables| - 1;
    if variables[n].name == name && name != "" {
      i := n;
    } else {
      i := DesiredIsLast(variables[..n], name);
      assert variables[..n][i] == variables[i];
      forall j | i < j < |variables| ensures variables[j].name != variables[i].name {
        if j < n { assert variables[..n][j] == variables[j]; }
      }
    }
  }

  lemma {:induction false} NamedIsDesired(variables: seq<Variable>, i: nat)
    requires i < |variables| && variables[i].name != ""
    ensures variables[i].name in Desired(variables)
  {
    var n := |variables| - 1;
    if i < n {
      NamedIsDesired(variables[..n], i);
      assert variables[..n][i] == variables[i];
    }
  }

  lemma OneLastEntry(variables: seq<Variable>, i: nat, j: nat)
    requires LastEntry(variables, i) && LastEntry(variables, j) && variables[i].name == variables[j].name
    ensures i == j
  {
  }

  /** The record says what the last entry of its name says. */
  predicate Reflects(variables: seq<Variable>, i: nat, r: Record) {
    LastEntry(variables, i) && !r.isSecret && r.name == variables[i].name && r.value.Some? && Says(variables[i], r.value.value)
  }

  /** When every variable is older than ten minutes and no name occurs twice among them, a sync leaves one variable for each
      name of the spec, with the value of the last entry of that name, and no other variable. */
  lemma SyncSays(s: State, variables: seq<Variable>, now: int)
    requires WellFormed(s) && DistinctVariables(s.records)
    requires forall r :: r in s.records && !r.isSecret ==> r.written < now - 600
    ensures var after := Sync(s, variables, now).records;
            && DistinctVariables(after)
            && (forall r :: r in after && !r.isSecret ==> exists i: nat :: Reflects(variables, i, r))
            && (forall i: nat :: LastEntry(variables, i) ==> exists r :: r in after && Reflects(variables, i, r))
  {
    hide Sync, LastEntry, Says;
    SyncConvergesIff(s, variables, now);
    var after, desired := Sync(s, variables, now).records, Desired(variables);
    forall r | r in after && !r.isSecret ensures exists i: nat :: Reflects(variables, i, r) {
      var i := DesiredIsLast(variables, r.name);
      assert Reflects(variables, i, r);
    }
    forall i: nat | LastEntry(variables, i) ensures exists r :: r in after && Reflects(variables, i, r) {
      LastIsNamed(variables, i);
      NamedIsDesired(variables, i);
      var k :| 0 <= k < |after| && !after[k].isSecret && after[k].name == variables[i].name;
      var j := DesiredIsLast(variables, after[k].name);
      OneLastEntry(variables, i, j);
      assert after[k] in after && Reflects(variables, i, after[k]);
    }
  }

  lemma LastIsNamed(variables: seq<Variable>, i: nat)
    requires LastEntry(variables, i)
    ensures i < |variables| && variables[i].name != ""
  {
  }

  lemma {:induction false} CreatedNow(names: seq<string>, existing: map<string, Record>, desired: map<string, string>, next: nat, now: int)
    ensures forall r :: r in Created(names, existing, desired, next, now) ==> r.written == now && !r.isSecret && r.id >= next
  {
    if names != [] { CreatedNow(names[..|names| - 1], existing, desired, next, now); }
  }

  /** What a sync changes, it stamps: a record that was not there before is a variable written now, and either new or an old
      record with another value. So the quiet period starts again for it. */
  lemma ChangedAreStamped(s: State, variables: seq<Variable>, now: int, r: Record)
    requires r in Sync(s, variables, now).records && r !in s.records
    ensures r.written == now && !r.isSecret
    ensures r.id >= s.next
            || exists q :: q in s.records && q.written < now - 600 && r == q.(value := r.value, written := now) && r.value != q.value
  {
    hide Fates, Created, Desired, Existing;
    var desired, existing := Desired(variables), Existing(s.records);
    CreatedNow(DesiredNames(variables), existing, desired, s.next, now);
    if r in Fates(s.records, existing, desired, now, desired.Keys, existing.Keys) {
      var q := FatesComeFrom(s.records, existing, desired, now, desired.Keys, existing.Keys, r);
    }
  }
}

// One onboarding record on disk and any number of stores over it: `bridge/onboarding/state.py`.
//
// A store answers a reader from what it last saw, and a writer from the disk.  The fields other than the step and the
// time of the last write are a map from names to values.
module Onboarding {
  import opened Wrappers

  datatype Step =
    | Idle | WaitingForTimezone | WaitingForPhoneChoice | WaitingForPhone | WaitingForCode | WaitingFor2fa
    | Validating | Saving | StartingBridge | Completed

  /** Steps that live only inside an attempt to log in. */
  predicate Ephemeral(s: Step) { s.WaitingForCode? || s.WaitingFor2fa? || s.Validating? || s.Saving? }

  datatype Record = Record(step: Step, fields: map<string, int>, updatedAt: int)

  const FRESH := Record(Idle, map[], 0)

  function Rewound(r: Record): Record { if Ephemeral(r.step) then r.(step := WaitingForPhone) else r }

  /** What an update names. */
  datatype Changes = Changes(step: Option<Step>, fields: map<string, int>)

  function Changed(r: Record, x: Changes): Record {
    r.(step := if x.step.Some? then x.step.value else r.step, fields := r.fields + x.fields)
  }

  /** The file; `None` where there is none. */
  function OnDisk(file: Option<Record>): Record { if file.None? then FRESH else file.value }

  function Updated(file: Option<Record>, x: Changes, now: int): Record {
    Changed(Rewound(OnDisk(file)), x).(updatedAt := now)
  }

  // ---------------------------------------------------------------- any number of stores

  /** `Damage` leaves the file unreadable, which reads like no file at all. */
  datatype Event = Load(store: int) | Update(store: int, changes: Changes, now: int) | Restart(store: int) | Damage

  datatype World = World(file: Option<Record>, cached: map<int, Record>)

  function Next(w: World, e: Event): World {
    match e
    case Load(s) => if s in w.cached then w else w.(cached := w.cached[s := Rewound(OnDisk(w.file))])
    case Update(s, x, now) =>
      var r := Updated(w.file, x, now);
      World(Some(r), w.cached[s := r])
    case Restart(s) => w.(cached := w.cached - {s})
    case Damage => w.(file := None)
  }

  function Field(r: Record, field: string): Option<int> { if field in r.fields then Some(r.fields[field]) else None }

  /** The steps a new process cannot go on from. */
  predicate Perishable(s: Step) { s in {WaitingForCode, WaitingFor2fa, Validating, Saving} }

  /** What a store that has seen nothing yet reads: the record on disk, asking for the phone again where the attempt is
      gone; an idle one where there is no file.  Reading changes nothing else. */
  lemma FirstLoadIs(w: World, s: int)
    ensures var n := Next(w, Event.Load(s));
            && n.file == w.file
            && n.cached == if s in w.cached then w.cached
                           else w.cached[s := if w.file == None then Record(Idle, map[], 0)
                                              else if Perishable(w.file.value.step)
                                              then w.file.value.(step := WaitingForPhone)
                                              else w.file.value]
  {
  }

  /** What an update writes, to the disk and to its own store: each field it names, and every other as the disk had
      it, whatever this store held. */
  lemma UpdateIs(w: World, s: int, x: Changes, now: int, field: string)
    ensures var n := Next(w, Event.Update(s, x, now));
            && n.file.Some? && n.cached == w.cached[s := n.file.value]
            && n.file.value.updatedAt == now
            && Field(n.file.value, field) == (if field in x.fields then Some(x.fields[field])
                                              else if w.file == None then None
                                              else Field(w.file.value, field))
            && (w.file != None && x.step == None && !Perishable(w.file.value.step) ==>
                  n.file.value.step == w.file.value.step)
            && (x.step != None ==> n.file.value.step == x.step.value)
  {
  }

  function After(w: World, events: seq<Event>): World
    decreases events
  {
    if events == [] then w else After(Next(w, events[0]), events[1..])
  }

  /** The value somebody last named for a field, whoever it was; nothing once the file is damaged. */
  function LastNamed(events: seq<Event>, field: string, start: Option<int>): Option<int>
    decreases events
  {
    if events == [] then start
    else
      var e := events[0];
      LastNamed(events[1..], field,
                if e.Damage? then None
                else if e.Update? && field in e.changes.fields then Some(e.changes.fields[field])
                else start)
  }

  /** No field is ever lost to another store: on disk, each holds what anybody last named for it, since the file was
      last damaged. */
  lemma {:induction false} NothingIsLost(w: World, events: seq<Event>, field: string)
    ensures Field(OnDisk(After(w, events).file), field) == LastNamed(events, field, Field(OnDisk(w.file), field))
    decreases events
  {
    if events != [] { NothingIsLost(Next(w, events[0]), events[1..], field); }
  }

  /** The step on disk: the one last named, or, once an update came that named none, no ephemeral one. */
  function LastStep(events: seq<Event>, start: Step): Step
    decreases events
  {
    if events == [] then start
    else
      var e := events[0];
      LastStep(events[1..],
               if e.Damage? then Idle
               else if !e.Update? then start
               else if e.changes.step.Some? then e.changes.step.value
               else if Ephemeral(start) then WaitingForPhone
               else start)
  }

  lemma {:induction false} StepIsTheLastNamed(w: World, events: seq<Event>)
    ensures OnDisk(After(w, events).file).step == LastStep(events, OnDisk(w.file).step)
    decreases events
  {
    if events != [] { StepIsTheLastNamed(Next(w, events[0]), events[1..]); }
  }

  /** The store does nothing but read. */
  predicate Silent(events: seq<Event>, store: int) {
    forall i :: 0 <= i < |events| ==> events[i].Damage? || events[i].store != store || events[i].Load?
  }

  /** A reader keeps the record it first saw, whatever the others write, until it writes itself or starts again. */
  lemma {:induction false} ReaderStaysBehind(w: World, events: seq<Event>, store: int)
    requires store in w.cached && Silent(events, store)
    ensures store in After(w, events).cached && After(w, events).cached[store] == w.cached[store]
    decreases events
  {
    if events != [] {
      assert Silent(events[1..], store);
      ReaderStaysBehind(Next(w, events[0]), events[1..], store);
    }
  }

  /** What a store holds names an ephemeral step only if this store wrote it. */
  predicate Rests(w: World, store: int) { store in w.cached ==> !Ephemeral(w.cached[store].step) }

  predicate NeverNamesEphemeral(events: seq<Event>, store: int) {
    forall i :: 0 <= i < |events| && events[i].Update? && events[i].store == store ==>
                  events[i].changes.step.None? || !Ephemeral(events[i].changes.step.value)
  }

  lemma {:induction false} OnlyItsOwnQuestions(w: World, events: seq<Event>, store: int)
    requires Rests(w, store) && NeverNamesEphemeral(events, store)
    ensures Rests(After(w, events), store)
    decreases events
  {
    if events != [] {
      assert NeverNamesEphemeral(events[1..], store);
      OnlyItsOwnQuestions(Next(w, events[0]), events[1..], store);
    }
  }

  // ---------------------------------------------------------------- the store

  class StateFile {
    var record: Option<Record>

    constructor ()
      ensures record == None
    {
      record := None;
    }
  }

  class StateStore {
    const file: StateFile
    var cached: Option<Record>

    constructor (path: StateFile)
      ensures file == path && cached == None
    {
      file := path;
      cached := None;
    }

    /** This store, as number 0 of a world that holds nothing else. */
    function Seen(): World
      reads this, file
    {
      World(file.record, if cached.None? then map[] else map[0 := cached.value])
    }

    method Load() returns (r: Record)
      modifies this`cached
      ensures Seen() == Next(old(Seen()), Event.Load(0)) && cached == Some(r)
    {
      if cached.Some? { return cached.value; }
      r := OnDisk(file.record);
      if Ephemeral(r.step) {
        r := r.(step := WaitingForPhone);
      }
      cached := Some(r);
    }

    method Save(r: Record, now: int)
      modifies this, file
      ensures file.record == cached == Some(r.(updatedAt := now))
    {
      file.record := Some(r.(updatedAt := now));
      cached := Some(r.(updatedAt := now));
    }

    /** The base is read from the disk again, never taken from `cached`. */
    method Update(x: Changes, now: int)
      modifies this, file
      ensures Seen() == Next(old(Seen()), Event.Update(0, x, now))
    {
      var current := OnDisk(file.record);
      if Ephemeral(current.step) {
        current := current.(step := WaitingForPhone);
      }
      Save(Changed(current, x), now);
    }
  }
}

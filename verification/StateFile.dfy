/** The crash-atomic state file: a temporary file and two renames over a primary and a backup, proved to
    behave as a pair of cells, the current state and the one to fall back to. */
module StateFile {

  /** A state as far as saving and loading are concerned. */
  datatype Doc = Doc(body: string, revision: nat)

  /** Unreadable or malformed content is `Corrupt`. */
  datatype File = Missing | Corrupt | Saved(doc: Doc)

  /** `legacy` is Missing when the store is not at the default path. */
  datatype Disk = Disk(primary: File, backup: File, temp: File, legacy: File)

  datatype Loaded = Default | Found(doc: Doc)

  /** The migration of a state's content; it keeps the revision. */
  type Migration = string -> string

  function Migrated(g: Migration, d: Doc): Doc { Doc(g(d.body), d.revision) }

  /** What loading returns, apart from the note where it came from. */
  function Value(g: Migration, d: Disk): Loaded
  {
    if d.primary.Saved? then Found(Migrated(g, d.primary.doc))
    else if d.backup.Saved? then Found(Migrated(g, d.backup.doc))
    else if d.legacy.Saved? then Found(Migrated(g, d.legacy.doc))
    else Default
  }

  /** What saving writes for a state. */
  function Written(g: Migration, d: Doc): Doc { Doc(g(d.body), d.revision + 1) }

  /** The five instructions of a save. A rename is atomic; a write is not. */
  function Instruction(d: Disk, w: Doc, i: nat): Disk
  {
    if i == 0 then d.(temp := Corrupt)
    else if i == 1 then d.(temp := Saved(w))
    else if i == 2 then (if d.primary.Saved? then d.(backup := d.primary, primary := Missing) else d)
    else if i == 3 then (if d.temp.Missing? then d else d.(primary := d.temp, temp := Missing))
    else d.(temp := Missing)
  }

  const INSTRUCTIONS: nat := 5

  /** The disk when a save stops after n instructions. */
  function Stopped(d: Disk, w: Doc, n: nat): Disk
  {
    if n == 0 then d else Instruction(Stopped(d, w, n - 1), w, n - 1)
  }

  class StateStore {
    var primary: File
    var backup: File
    var temp: File
    var legacy: File

    ghost function View(): Disk reads this { Disk(primary, backup, temp, legacy) }

    constructor (d: Disk)
      ensures View() == d
    {
      primary, backup, temp, legacy := d.primary, d.backup, d.temp, d.legacy;
    }

    /** Saves, or dies after `crash` instructions. */
    method Save(g: Migration, state: Doc, crash: nat)
      modifies this
      ensures View() == Stopped(old(View()), Written(g, state), if crash < INSTRUCTIONS then crash else INSTRUCTIONS)
    {
      var w := Written(g, state);
      if crash == 0 { return; }
      temp := Corrupt;
      assert View() == Stopped(old(View()), w, 1);
      if crash == 1 { return; }
      temp := Saved(w);
      assert View() == Stopped(old(View()), w, 2);
      if crash == 2 { return; }
      if primary.Saved? { primary, backup := Missing, primary; }
      assert View() == Stopped(old(View()), w, 3);
      if crash == 3 { return; }
      primary, temp := temp, Missing;
      assert View() == Stopped(old(View()), w, 4);
      if crash == 4 { return; }
      temp := Missing;
    }

    method Load(g: Migration) returns (r: Loaded, fromBackup: bool)
      ensures r == Value(g, View())
      ensures fromBackup == (!primary.Saved? && r.Found?)
    {
      if primary.Saved? { return Found(Migrated(g, primary.doc)), false; }
      if backup.Saved? { return Found(Migrated(g, backup.doc)), true; }
      if legacy.Saved? { return Found(Migrated(g, legacy.doc)), true; }
      r, fromBackup := Default, false;
    }
  }

  // ---------------------------------------------------------------------------------------
  // Two cells

  /** What loading would return if the primary became unreadable. */
  function Fallback(g: Migration, d: Disk): Loaded { Value(g, d.(primary := Corrupt)) }

  datatype Cells = Cells(current: Loaded, previous: Loaded)

  function Abstract(g: Migration, d: Disk): Cells { Cells(Value(g, d), Fallback(g, d)) }

  /** A save moves both cells at once; dying between the two renames loses the older cell only. */
  function SavedCells(c: Cells, w: Loaded, n: nat): Cells
  {
    if n <= 2 then c else if n == 3 then Cells(c.current, c.current) else Cells(w, c.current)
  }

  /** From any disk, whatever is missing or corrupt, a save stopped anywhere moves the two cells as
      specified: loading gives the state before it or the state it wrote. */
  lemma SaveRefines(g: Migration, d: Disk, w: Doc, n: nat)
    requires n <= INSTRUCTIONS
    ensures Abstract(g, Stopped(d, w, n)) == SavedCells(Abstract(g, d), Found(Migrated(g, w)), n)
  {
    var s1 := Instruction(d, w, 0);
    var s2 := Instruction(s1, w, 1);
    var s3 := Instruction(s2, w, 2);
    var s4 := Instruction(s3, w, 3);
    assert Stopped(d, w, 0) == d;
    assert Stopped(d, w, 1) == s1;
    assert Stopped(d, w, 2) == s2;
    assert Stopped(d, w, 3) == s3;
    assert Stopped(d, w, 4) == s4;
    assert Stopped(d, w, 5) == Instruction(s4, w, 4);
  }

  // ---------------------------------------------------------------------------------------
  // Runs of saves, crashes and damage

  /** A save that stops after n instructions, or the primary becoming unreadable or disappearing. */
  datatype Event = SaveEvent(state: Doc, n: nat) | Damage(removed: bool)

  predicate Wellformed(e: Event) { e.SaveEvent? ==> e.n <= INSTRUCTIONS }

  function Step(g: Migration, d: Disk, e: Event): Disk
  {
    match e
    case SaveEvent(s, n) => Stopped(d, Written(g, s), n)
    case Damage(removed) => d.(primary := if removed then Missing else Corrupt)
  }

  function CellStep(g: Migration, c: Cells, e: Event): Cells
  {
    match e
    case SaveEvent(s, n) => SavedCells(c, Found(Migrated(g, Written(g, s))), n)
    case Damage(_) => Cells(c.previous, c.previous)
  }

  function Run(g: Migration, d: Disk, es: seq<Event>): Disk
  {
    if es == [] then d else Step(g, Run(g, d, es[..|es| - 1]), es[|es| - 1])
  }

  function CellRun(g: Migration, c: Cells, es: seq<Event>): Cells
  {
    if es == [] then c else CellStep(g, CellRun(g, c, es[..|es| - 1]), es[|es| - 1])
  }

  /** The files refine the two cells over every run, from any starting disk. */
  lemma {:induction false} RunRefines(g: Migration, d: Disk, es: seq<Event>)
    requires forall i :: 0 <= i < |es| ==> Wellformed(es[i])
    ensures Abstract(g, Run(g, d, es)) == CellRun(g, Abstract(g, d), es)
  {
    if es != [] {
      var n := |es| - 1;
      RunRefines(g, d, es[..n]);
      var e := es[n];
      assert Wellformed(e);
      if e.SaveEvent? { SaveRefines(g, Run(g, d, es[..n]), Written(g, e.state), e.n); }
    }
  }

  /** The newest save that got as far as its second rename, or the starting value. */
  function Newest(g: Migration, v: Loaded, es: seq<Event>): Loaded
  {
    if es == [] then v
    else
      var e := es[|es| - 1];
      if e.SaveEvent? && e.n >= 4 then Found(Migrated(g, Written(g, e.state))) else Newest(g, v, es[..|es| - 1])
  }

  predicate Undamaged(es: seq<Event>) { forall i :: 0 <= i < |es| ==> es[i].SaveEvent? }

  lemma {:induction false} CellsHoldNewest(g: Migration, c: Cells, es: seq<Event>)
    requires Undamaged(es)
    ensures CellRun(g, c, es).current == Newest(g, c.current, es)
  {
    if es != [] { CellsHoldNewest(g, c, es[..|es| - 1]); }
  }

  /** With crashes only, loading always returns the newest save that reached its second rename, and so
      never the default once anything readable has been saved or was there at the start. */
  lemma CrashesLoseNothing(g: Migration, d: Disk, es: seq<Event>)
    requires Undamaged(es) && forall i :: 0 <= i < |es| ==> Wellformed(es[i])
    ensures Value(g, Run(g, d, es)) == Newest(g, Value(g, d), es)
    ensures Value(g, d).Found? || (exists i :: 0 <= i < |es| && es[i].SaveEvent? && es[i].n >= 4) ==>
            Value(g, Run(g, d, es)).Found?
  {
    RunRefines(g, d, es);
    CellsHoldNewest(g, Abstract(g, d), es);
    NewestFound(g, Value(g, d), es);
  }

  lemma {:induction false} NewestFound(g: Migration, v: Loaded, es: seq<Event>)
    ensures v.Found? || (exists i :: 0 <= i < |es| && es[i].SaveEvent? && es[i].n >= 4) ==> Newest(g, v, es).Found?
  {
    if es != [] {
      var before := es[..|es| - 1];
      NewestFound(g, v, before);
      if i :| 0 <= i < |es| && es[i].SaveEvent? && es[i].n >= 4 {
        if i < |es| - 1 { assert before[i].SaveEvent? && before[i].n >= 4; }
      }
    }
  }

  lemma {:induction false} CellsStayFound(g: Migration, c: Cells, es: seq<Event>)
    requires c.current.Found? && c.previous.Found?
    ensures CellRun(g, c, es).current.Found? && CellRun(g, c, es).previous.Found?
  {
    if es != [] { CellsStayFound(g, c, es[..|es| - 1]); }
  }

  /** Losing the primary right after a completed save steps back exactly one save, and once two states
      are there no later crash or damage ever yields the default again. */
  lemma DamageStepsBackOne(g: Migration, d: Disk, s: Doc, removed: bool, es: seq<Event>)
    requires forall i :: 0 <= i < |es| ==> Wellformed(es[i])
    ensures Value(g, Step(g, Step(g, d, SaveEvent(s, INSTRUCTIONS)), Damage(removed))) == Value(g, d)
    ensures Value(g, d).Found? ==> Value(g, Run(g, Step(g, d, SaveEvent(s, INSTRUCTIONS)), es)).Found?
  {
    var t := Step(g, d, SaveEvent(s, INSTRUCTIONS));
    SaveRefines(g, d, Written(g, s), INSTRUCTIONS);
    if Value(g, d).Found? {
      RunRefines(g, t, es);
      CellsStayFound(g, Abstract(g, t), es);
    }
  }

  /** Loading after a completed save gives the state that was saved, migrated when written and when read, one revision
      on, and the temporary file is gone. */
  lemma SavedIsLoaded(g: Migration, d: Disk, s: Doc)
    ensures var t := Stopped(d, Written(g, s), 5);
            Value(g, t) == Found(Doc(g(g(s.body)), s.revision + 1)) && t.temp == Missing && t.legacy == d.legacy
  {
    SaveRefines(g, d, Written(g, s), 5);
    assert Stopped(d, Written(g, s), 5) == Instruction(Stopped(d, Written(g, s), 4), Written(g, s), 4);
    LegacyStays(d, Written(g, s), 5);
  }

  lemma {:induction false} LegacyStays(d: Disk, w: Doc, n: nat)
    ensures Stopped(d, w, n).legacy == d.legacy
  {
    if n > 0 { LegacyStays(d, w, n - 1); }
  }
}

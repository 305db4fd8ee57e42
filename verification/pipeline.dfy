/**
  The crash-safe stage runner. Every durable effect of a run is one commit, so a
  crash at any moment leaves the disk that some prefix of the run's commits
  produces; what is only in memory (the loaded task) is lost. The VLM and graph
  stages are off.
*/
module Pipeline {
  import opened Wrappers

  type Id = string

  datatype Status = PENDING | PARSING | CHUNKING | EMBEDDING | DONE | FAILED

  /** The exception classes that the retry decision tells apart. */
  datatype Exn = UnsupportedFormat | BadConfig | PluginContract | Llm(code: int) | Ingest | OtherRagx | Foreign

  /** A refusal by an open circuit (code 6002) is the one LLM failure that is not retried. */
  predicate IsRetryable(e: Exn) {
    match e
    case UnsupportedFormat => false
    case BadConfig => false
    case PluginContract => false
    case Llm(code) => code != 6002
    case Ingest => true
    case OtherRagx => true
    case Foreign => false
  }

  datatype Task = Task(status: Status, progress: real, error: Option<Exn>, attempts: nat)

  /** content stands for everything of an atom or chunk that an upsert overwrites. */
  datatype Atom = Atom(id: Id, content: string)
  datatype Chunk = Chunk(id: Id, body: Body)
  datatype Body = Body(atomIds: seq<Id>, content: string)
  datatype Row = Row(atomIds: seq<Id>, content: string, vector: seq<real>)

  /** What is on disk for one task and its document. */
  datatype Disk = Disk(
    task: Task,
    checkpoints: map<Status, seq<Id>>,
    atoms: map<Id, string>,
    chunks: map<Id, Body>,
    rows: map<Id, Row>)

  datatype Commit =
    | SaveTask(task: Task)
    | SaveCheckpoint(stage: Status, produced: seq<Id>)
    | SaveAtoms(atoms: seq<Atom>)
    | SaveChunks(chunks: seq<Chunk>)
    | PutRow(chunk: Chunk, vector: seq<real>)

  function PutAtoms(table: map<Id, string>, atoms: seq<Atom>): map<Id, string> {
    if atoms == [] then table
    else
      var n := |atoms| - 1;
      PutAtoms(table, atoms[..n])[atoms[n].id := atoms[n].content]
  }

  /** On a conflict the stored atom ids stay. */
  function PutChunk(table: map<Id, Body>, c: Chunk): map<Id, Body> {
    table[c.id := if c.id in table then table[c.id].(content := c.body.content) else c.body]
  }

  function PutChunks(table: map<Id, Body>, chunks: seq<Chunk>): map<Id, Body> {
    if chunks == [] then table
    else
      var n := |chunks| - 1;
      PutChunk(PutChunks(table, chunks[..n]), chunks[n])
  }

  function PutVector(rows: map<Id, Row>, c: Chunk, vector: seq<real>): map<Id, Row> {
    rows[c.id := if c.id in rows then rows[c.id].(content := c.body.content, vector := vector)
                 else Row(c.body.atomIds, c.body.content, vector)]
  }

  function Apply(d: Disk, c: Commit): Disk {
    match c
    case SaveTask(task) => d.(task := task)
    case SaveCheckpoint(stage, produced) => d.(checkpoints := d.checkpoints[stage := produced])
    case SaveAtoms(atoms) => d.(atoms := PutAtoms(d.atoms, atoms))
    case SaveChunks(chunks) => d.(chunks := PutChunks(d.chunks, chunks))
    case PutRow(chunk, vector) => d.(rows := PutVector(d.rows, chunk, vector))
  }

  function Replay(d: Disk, log: seq<Commit>): Disk {
    if log == [] then d else Apply(Replay(d, log[..|log| - 1]), log[|log| - 1])
  }

  // ------------------------------------------------------------------ the plugins

  /**
    The deterministic part of the world: what the parser makes of the document,
    the chunker without its fresh ids, the embedder text by text, and the order
    in which a query by id lists a set of ids.
  */
  datatype Plugins = Plugins(
    parsed: seq<Atom>,
    chunker: seq<Atom> -> seq<Body>,
    embed: string -> seq<real>,
    order: set<Id> -> seq<Id>,
    maxAttempts: nat)
  {
    ghost predicate Valid() {
      forall ids :: Lists(order(ids), ids)
    }
  }

  /** The sequence has each element of the set once and nothing else. */
  ghost predicate Lists(s: seq<Id>, ids: set<Id>) {
    SetOf(s) == ids && Distinct(s)
  }

  ghost predicate Distinct(s: seq<Id>) {
    forall i, j :: 0 <= i < j < |s| ==> s[i] != s[j]
  }

  /** How one call of a stage function goes; an upsert may stop after some rows. */
  datatype Attempt = Completes | Raises(e: Exn, rows: nat)

  /** The rest of the world during one run: outcome and new chunk ids of the n-th stage call. */
  datatype Env = Env(attempt: nat -> Attempt, newIds: (nat, set<Id>, nat) -> seq<Id>)
  {
    /** New ids are new: as many as asked, distinct, and none in use. */
    ghost predicate Valid() {
      forall n, used, k :: NewIds(newIds(n, used, k), used, k)
    }
  }

  ghost predicate NewIds(ids: seq<Id>, used: set<Id>, k: nat) {
    |ids| == k && Distinct(ids) && forall i :: 0 <= i < k ==> ids[i] !in used
  }

  // ------------------------------------------------------------------ one run

  /** Disk, task in memory, stage functions called so far, commits so far. */
  datatype World = World(disk: Disk, task: Task, trace: seq<Status>, log: seq<Commit>)

  function Start(d: Disk): World { World(d, d.task, [], []) }

  function Did(w: World, c: Commit): World {
    w.(disk := Apply(w.disk, c), log := w.log + [c])
  }

  /** Sets the task in memory and saves it. */
  function Saved(w: World, task: Task): World { Did(w.(task := task), SaveTask(task)) }

  /** A stage function with the arguments it was given. */
  datatype StageFn = Parse | MakeChunks(atoms: seq<Atom>) | Embed(chunks: seq<Chunk>)
  {
    function Stage(): Status {
      match this
      case Parse => PARSING
      case MakeChunks(_) => CHUNKING
      case Embed(_) => EMBEDDING
    }
  }

  function AtomIds(atoms: seq<Atom>): seq<Id> {
    seq(|atoms|, i requires 0 <= i < |atoms| => atoms[i].id)
  }

  function ChunkIds(chunks: seq<Chunk>): seq<Id> {
    seq(|chunks|, i requires 0 <= i < |chunks| => chunks[i].id)
  }

  function WithIds(ids: seq<Id>, bodies: seq<Body>): seq<Chunk>
    requires |ids| == |bodies|
  {
    seq(|ids|, i requires 0 <= i < |ids| => Chunk(ids[i], bodies[i]))
  }

  function Upserted(p: Plugins, w: World, chunks: seq<Chunk>): World {
    if chunks == [] then w
    else
      var n := |chunks| - 1;
      Did(Upserted(p, w, chunks[..n]), PutRow(chunks[n], p.embed(chunks[n].body.content)))
  }

  function Min(a: nat, b: nat): nat { if a <= b then a else b }

  /** One call of a stage function. */
  function Work(p: Plugins, env: Env, w: World, fn: StageFn): (World, Result<seq<Id>, Exn>)
    requires env.Valid()
  {
    var n := |w.trace|;
    var w1 := w.(trace := w.trace + [fn.Stage()]);
    match env.attempt(n)
    case Raises(e, k) =>
      (if fn.Embed? then Upserted(p, w1, fn.chunks[..Min(k, |fn.chunks|)]) else w1, Failure(e))
    case Completes =>
      match fn
      case Parse => (Did(w1, SaveAtoms(p.parsed)), Success(AtomIds(p.parsed)))
      case MakeChunks(atoms) =>
        var bodies := p.chunker(atoms);
        var ids := env.newIds(n, w.disk.chunks.Keys, |bodies|);
        (Did(w1, SaveChunks(WithIds(ids, bodies))), Success(ids))
      case Embed(chunks) => (Upserted(p, w1, chunks), Success(ChunkIds(chunks)))
  }

  /** A stage whose checkpoint lists something is done; an empty checkpoint counts as none. */
  predicate Checkpointed(d: Disk, stage: Status) {
    stage in d.checkpoints && d.checkpoints[stage] != []
  }

  /** The task after a failed call. */
  function Blamed(p: Plugins, task: Task, e: Exn): Task {
    var failed := task.attempts + 1 >= p.maxAttempts || !IsRetryable(e);
    task.(attempts := task.attempts + 1, error := Some(e), status := if failed then FAILED else task.status)
  }

  function Left(p: Plugins, w: World): nat {
    if p.maxAttempts > w.task.attempts then p.maxAttempts - w.task.attempts else 0
  }

  /** One attempt at a stage: status, stage function, then the checkpoint or the blame. */
  function TryStage(p: Plugins, env: Env, w: World, fn: StageFn): (World, Result<seq<Id>, Exn>)
    requires env.Valid()
  {
    var w1 := Saved(w, w.task.(status := fn.Stage()));
    var (w2, made) := Work(p, env, w1, fn);
    match made
    case Success(ids) => (Did(w2, SaveCheckpoint(fn.Stage(), ids)), made)
    case Failure(e) => (Saved(w2, Blamed(p, w1.task, e)), made)
  }

  function StageRun(p: Plugins, env: Env, w: World, fn: StageFn): (World, Result<seq<Id>, Exn>)
    requires env.Valid()
    decreases Left(p, w)
  {
    if Checkpointed(w.disk, fn.Stage()) then (w, Success(w.disk.checkpoints[fn.Stage()]))
    else
      var (w2, made) := TryStage(p, env, w, fn);
      if made.Failure? && w2.task.status != FAILED then StageRun(p, env, w2, fn) else (w2, made)
  }

  function GetAtoms(p: Plugins, table: map<Id, string>): seq<Atom>
    requires p.Valid()
  {
    var ids := p.order(table.Keys);
    assert Lists(ids, table.Keys);
    assert forall i :: 0 <= i < |ids| ==> ids[i] in SetOf(ids);
    seq(|ids|, i requires 0 <= i < |ids| => Atom(ids[i], table[ids[i]]))
  }

  function GetChunks(p: Plugins, table: map<Id, Body>): seq<Chunk>
    requires p.Valid()
  {
    var ids := p.order(table.Keys);
    assert Lists(ids, table.Keys);
    assert forall i :: 0 <= i < |ids| ==> ids[i] in SetOf(ids);
    seq(|ids|, i requires 0 <= i < |ids| => Chunk(ids[i], table[ids[i]]))
  }

  /** The stage function with the input it reads from the database. */
  function FnFor(p: Plugins, d: Disk, stage: Status): StageFn
    requires p.Valid()
  {
    match stage
    case CHUNKING => MakeChunks(GetAtoms(p, d.atoms))
    case EMBEDDING => Embed(GetChunks(p, d.chunks))
    case _ => Parse
  }

  /** The stages still to do, this one included; DONE when none is left. */
  function StagesLeft(stage: Status): nat {
    match stage
    case PARSING => 3
    case CHUNKING => 2
    case EMBEDDING => 1
    case _ => 0
  }

  function Next(stage: Status): Status {
    match stage
    case PARSING => CHUNKING
    case CHUNKING => EMBEDDING
    case _ => DONE
  }

  function RunFrom(p: Plugins, env: Env, w: World, stage: Status): (World, Result<(), Exn>)
    requires env.Valid() && p.Valid()
    decreases StagesLeft(stage), |w.log|
  {
    if StagesLeft(stage) == 0 then (Saved(w, w.task.(status := DONE, progress := 1.0)), Success(()))
    else
      var (w1, r) := StageRun(p, env, w, FnFor(p, w.disk, stage));
      if r.Failure? then (w1, Failure(r.error)) else RunFrom(p, env, w1, Next(stage))
  }

  function FullRun(p: Plugins, env: Env, d: Disk): (World, Result<(), Exn>)
    requires env.Valid() && p.Valid()
  {
    RunFrom(p, env, Start(d), PARSING)
  }

  // ------------------------------------------------------------ runs with crashes

  /** One run and the number of its commits that happened before the process died. */
  datatype Life = Life(env: Env, cut: nat)

  function LogOf(p: Plugins, d: Disk, env: Env): seq<Commit>
    requires env.Valid() && p.Valid()
  {
    FullRun(p, env, d).0.log
  }

  function Survives(p: Plugins, d: Disk, life: Life): Disk
    requires life.env.Valid() && p.Valid()
  {
    var log := LogOf(p, d, life.env);
    Replay(d, log[..Min(life.cut, |log|)])
  }

  ghost predicate AllValid(lives: seq<Life>) { forall l :: 0 <= l < |lives| ==> lives[l].env.Valid() }

  /** The disk after runs that each crashed, failed or finished. */
  ghost function AfterLives(p: Plugins, d: Disk, lives: seq<Life>): Disk
    requires AllValid(lives) && p.Valid()
  {
    if lives == [] then d
    else Survives(p, AfterLives(p, d, lives[..|lives| - 1]), lives[|lives| - 1])
  }

  /** 1 when the last of the first k commits stored chunks, so that their checkpoint is still missing. */
  function Gap(log: seq<Commit>, k: nat): nat
    requires k <= |log|
  {
    if k > 0 && log[k - 1].SaveChunks? then 1 else 0
  }

  /** How many of the runs died between storing the chunks and their checkpoint. */
  ghost function Gaps(p: Plugins, d: Disk, lives: seq<Life>): nat
    requires AllValid(lives) && p.Valid()
  {
    if lives == [] then 0
    else
      var before := lives[..|lives| - 1];
      var last := lives[|lives| - 1];
      var log := LogOf(p, AfterLives(p, d, before), last.env);
      Gaps(p, d, before) + Gap(log, Min(last.cut, |log|))
  }

  // ------------------------------------------------------------- what stays true

  function AtomTable(p: Plugins): map<Id, string> { PutAtoms(map[], p.parsed) }

  /** The chunk bodies that the chunker makes of the stored atoms. */
  function Bodies(p: Plugins): seq<Body>
    requires p.Valid()
  {
    p.chunker(GetAtoms(p, AtomTable(p)))
  }

  function RowOf(p: Plugins, b: Body): Row { Row(b.atomIds, b.content, p.embed(b.content)) }

  function Times(n: nat, m: nat): nat { n * m }

  /** The ids under which a body is stored. */
  function Holders(chunks: map<Id, Body>, b: Body): set<Id> {
    set id | id in chunks && chunks[id] == b
  }

  function Count(chunks: map<Id, Body>, b: Body): nat { |Holders(chunks, b)| }

  /** Every chunk body is stored n times as often as the chunker made it. */
  ghost predicate Copies(chunks: map<Id, Body>, bodies: seq<Body>, n: nat) {
    forall b :: Count(chunks, b) == Times(n, multiset(bodies)[b])
  }

  ghost predicate ParsedOk(p: Plugins, d: Disk) {
    && (d.atoms == map[] || d.atoms == AtomTable(p))
    && (PARSING in d.checkpoints ==> d.atoms == AtomTable(p) && d.checkpoints[PARSING] == AtomIds(p.parsed))
  }

  function Bit(b: bool): nat { if b then 1 else 0 }

  ghost predicate ChunkedOk(p: Plugins, d: Disk, gaps: nat)
    requires p.Valid()
  {
    && (CHUNKING in d.checkpoints ==> PARSING in d.checkpoints && |d.checkpoints[CHUNKING]| == |Bodies(p)|)
    && Copies(d.chunks, Bodies(p), gaps + Bit(CHUNKING in d.checkpoints))
  }

  ghost predicate RowsOk(p: Plugins, chunks: map<Id, Body>, rows: map<Id, Row>) {
    forall id :: id in rows ==> id in chunks && rows[id] == RowOf(p, chunks[id])
  }

  ghost predicate EmbeddedOk(p: Plugins, d: Disk) {
    && RowsOk(p, d.chunks, d.rows)
    && (EMBEDDING in d.checkpoints ==> CHUNKING in d.checkpoints && d.rows.Keys == d.chunks.Keys)
  }

  ghost predicate Inv(p: Plugins, d: Disk, gaps: nat)
    requires p.Valid()
  {
    ParsedOk(p, d) && ChunkedOk(p, d, gaps) && EmbeddedOk(p, d)
  }

  /** Every disk that a crash after some of these commits could leave satisfies the invariant. */
  ghost predicate AllPrefixes(p: Plugins, d: Disk, log: seq<Commit>, gaps: nat)
    requires p.Valid()
  {
    && (log != [] ==> AllPrefixes(p, d, log[..|log| - 1], gaps))
    && Inv(p, Replay(d, log), gaps + Gap(log, |log|))
  }

  lemma {:induction false} PrefixInv(p: Plugins, d: Disk, log: seq<Commit>, gaps: nat, k: nat)
    requires p.Valid() && AllPrefixes(p, d, log, gaps) && k <= |log|
    ensures Inv(p, Replay(d, log[..k]), gaps + Gap(log, k))
    decreases log
  {
    if k == |log| {
      assert log[..k] == log;
    } else {
      PrefixInv(p, d, log[..|log| - 1], gaps, k);
      assert log[..|log| - 1][..k] == log[..k];
    }
  }

  ghost predicate Sound(p: Plugins, d0: Disk, w: World, gaps: nat)
    requires p.Valid()
  {
    w.disk == Replay(d0, w.log) && AllPrefixes(p, d0, w.log, gaps)
  }

  lemma DidSound(p: Plugins, d0: Disk, w: World, gaps: nat, c: Commit)
    requires p.Valid() && Sound(p, d0, w, gaps)
    requires Inv(p, Apply(w.disk, c), gaps + Bit(c.SaveChunks?))
    ensures Sound(p, d0, Did(w, c), gaps)
  {
  }

  // -- storing atoms

  lemma {:induction false} PutAtomsOver(table: map<Id, string>, atoms: seq<Atom>)
    ensures PutAtoms(table, atoms) == table + PutAtoms(map[], atoms)
    decreases atoms
  {
    if atoms != [] { PutAtomsOver(table, atoms[..|atoms| - 1]); }
  }

  /** Storing the parser's atoms again changes nothing. */
  lemma AtomsAgain(p: Plugins, d: Disk)
    requires ParsedOk(p, d)
    ensures PutAtoms(d.atoms, p.parsed) == AtomTable(p)
  {
    PutAtomsOver(d.atoms, p.parsed);
  }

  // -- storing chunks

  lemma HoldersPut(table: map<Id, Body>, c: Chunk, b: Body)
    requires c.id !in table
    ensures c.id !in Holders(table, b)
    ensures Holders(PutChunk(table, c), b) == Holders(table, b) + if c.body == b then {c.id} else {}
  {
  }

  lemma OneMoreMember(s: set<Id>, x: Id)
    requires x !in s
    ensures |s + {x}| == |s| + 1
  {
  }

  lemma CountPut(table: map<Id, Body>, c: Chunk, b: Body)
    requires c.id !in table
    ensures Count(PutChunk(table, c), b) == Count(table, b) + Bit(c.body == b)
  {
    HoldersPut(table, c, b);
    if c.body == b { OneMoreMember(Holders(table, b), c.id); }
  }

  lemma WithIdsPrefix(ids: seq<Id>, bodies: seq<Body>, n: nat)
    requires n < |ids| == |bodies|
    ensures WithIds(ids, bodies)[..n] == WithIds(ids[..n], bodies[..n])
  {
  }

  lemma {:induction false} PutChunksKeys(table: map<Id, Body>, ids: seq<Id>, bodies: seq<Body>)
    requires |ids| == |bodies|
    ensures PutChunks(table, WithIds(ids, bodies)).Keys == table.Keys + SetOf(ids)
    decreases ids
  {
    var n := |ids| - 1;
    if n >= 0 {
      PutChunksKeys(table, ids[..n], bodies[..n]);
      WithIdsPrefix(ids, bodies, n);
      assert SetOf(ids) == SetOf(ids[..n]) + {ids[n]} by { assert ids == ids[..n] + [ids[n]]; }
    }
  }

  lemma {:induction false} PutChunksKeep(table: map<Id, Body>, ids: seq<Id>, bodies: seq<Body>, id: Id)
    requires |ids| == |bodies| && id in table && id !in ids
    ensures id in PutChunks(table, WithIds(ids, bodies)) && PutChunks(table, WithIds(ids, bodies))[id] == table[id]
    decreases ids
  {
    var n := |ids| - 1;
    if n >= 0 {
      PutChunksKeep(table, ids[..n], bodies[..n], id);
      WithIdsPrefix(ids, bodies, n);
    }
  }

  lemma {:induction false} CountPutAll(table: map<Id, Body>, ids: seq<Id>, bodies: seq<Body>, b: Body)
    requires NewIds(ids, table.Keys, |bodies|)
    ensures Count(PutChunks(table, WithIds(ids, bodies)), b) == Count(table, b) + multiset(bodies)[b]
    decreases ids
  {
    var n := |ids| - 1;
    if n >= 0 {
      CountPutAll(table, ids[..n], bodies[..n], b);
      WithIdsPrefix(ids, bodies, n);
      var most := PutChunks(table, WithIds(ids[..n], bodies[..n]));
      assert ids[n] !in most by {
        PutChunksKeys(table, ids[..n], bodies[..n]);
        assert ids[n] !in SetOf(ids[..n]);
      }
      CountPut(most, Chunk(ids[n], bodies[n]), b);
      assert bodies == bodies[..n] + [bodies[n]];
    }
  }

  lemma TimesNext(n: nat, m: nat)
    ensures Times(n + 1, m) == Times(n, m) + m && Times(n, 0) == 0
  {
  }

  /** Storing a batch of chunks under new ids adds one copy of each body. */
  lemma OneMoreCopy(table: map<Id, Body>, ids: seq<Id>, bodies: seq<Body>, n: nat)
    requires NewIds(ids, table.Keys, |bodies|) && Copies(table, bodies, n)
    ensures Copies(PutChunks(table, WithIds(ids, bodies)), bodies, n + 1)
  {
    forall b ensures Count(PutChunks(table, WithIds(ids, bodies)), b) == Times(n + 1, multiset(bodies)[b]) {
      CountPutAll(table, ids, bodies, b);
      TimesNext(n, multiset(bodies)[b]);
    }
  }

  // -- one stage

  /** The stage function was given what the stages before it left on disk. */
  ghost predicate GivenFrom(p: Plugins, d: Disk, fn: StageFn)
    requires p.Valid()
  {
    match fn
    case Parse => true
    case MakeChunks(atoms) => PARSING in d.checkpoints && atoms == GetAtoms(p, d.atoms)
    case Embed(chunks) => CHUNKING in d.checkpoints && chunks == GetChunks(p, d.chunks)
  }

  /** Between stages: sound, and not in the gap. */
  ghost predicate Steady(p: Plugins, d0: Disk, w: World, gaps: nat)
    requires p.Valid()
  {
    Sound(p, d0, w, gaps) && Inv(p, w.disk, gaps)
  }

  lemma SaveTaskSteady(p: Plugins, d0: Disk, w: World, gaps: nat, task: Task)
    requires p.Valid() && Steady(p, d0, w, gaps)
    ensures Steady(p, d0, Saved(w, task), gaps)
  {
    TaskAside(p, w.disk, gaps, task);
    assert Sound(p, d0, w.(task := task), gaps);
    DidSound(p, d0, w.(task := task), gaps, SaveTask(task));
  }

  /** The task row is no part of the invariant. */
  lemma TaskAside(p: Plugins, d: Disk, gaps: nat, task: Task)
    requires p.Valid() && Inv(p, d, gaps)
    ensures Inv(p, d.(task := task), gaps)
  {
  }

  lemma PutVectorOk(p: Plugins, d: Disk, c: Chunk)
    requires EmbeddedOk(p, d) && c.id in d.chunks && d.chunks[c.id] == c.body
    ensures EmbeddedOk(p, d.(rows := PutVector(d.rows, c, p.embed(c.body.content))))
  {
  }

  lemma PutRowSteady(p: Plugins, d0: Disk, w: World, gaps: nat, c: Chunk)
    requires p.Valid() && Steady(p, d0, w, gaps)
    requires c.id in w.disk.chunks && w.disk.chunks[c.id] == c.body
    ensures Steady(p, d0, Did(w, PutRow(c, p.embed(c.body.content))), gaps)
  {
    var commit := PutRow(c, p.embed(c.body.content));
    PutVectorOk(p, w.disk, c);
    assert Inv(p, Apply(w.disk, commit), gaps);
    DidSound(p, d0, w, gaps, commit);
  }

  ghost predicate StoredIn(chunks: seq<Chunk>, table: map<Id, Body>) {
    forall i :: 0 <= i < |chunks| ==> chunks[i].id in table && table[chunks[i].id] == chunks[i].body
  }

  /** An upsert touches the rows of its chunks and nothing else. */
  lemma {:induction false} UpsertedRows(p: Plugins, w: World, chunks: seq<Chunk>)
    ensures Upserted(p, w, chunks).disk == w.disk.(rows := Upserted(p, w, chunks).disk.rows)
    ensures Upserted(p, w, chunks).disk.rows.Keys == w.disk.rows.Keys + SetOf(ChunkIds(chunks))
    decreases chunks
  {
    var n := |chunks| - 1;
    if n >= 0 {
      UpsertedRows(p, w, chunks[..n]);
      assert ChunkIds(chunks) == ChunkIds(chunks[..n]) + [chunks[n].id];
    }
  }

  /** Row by row, wherever the upsert stops. */
  lemma {:induction false} UpsertedSteady(p: Plugins, d0: Disk, w: World, gaps: nat, chunks: seq<Chunk>)
    requires p.Valid() && Steady(p, d0, w, gaps) && StoredIn(chunks, w.disk.chunks)
    ensures Steady(p, d0, Upserted(p, w, chunks), gaps)
    decreases chunks
  {
    var n := |chunks| - 1;
    if n >= 0 {
      UpsertedSteady(p, d0, w, gaps, chunks[..n]);
      UpsertedRows(p, w, chunks[..n]);
      PutRowSteady(p, d0, Upserted(p, w, chunks[..n]), gaps, chunks[n]);
    }
  }

  lemma ChunkIdsOfTable(p: Plugins, table: map<Id, Body>)
    requires p.Valid()
    ensures SetOf(ChunkIds(GetChunks(p, table))) == table.Keys
    ensures StoredIn(GetChunks(p, table), table)
  {
    var ids := p.order(table.Keys);
    assert Lists(ids, table.Keys);
    assert ChunkIds(GetChunks(p, table)) == ids;
  }

  /** A call of a stage function that raises leaves the invariant and the inputs as they were. */
  lemma RaisedSteady(p: Plugins, env: Env, d0: Disk, w: World, gaps: nat, fn: StageFn)
    requires p.Valid() && env.Valid() && Steady(p, d0, w, gaps) && GivenFrom(p, w.disk, fn)
    requires Work(p, env, w, fn).1.Failure?
    ensures var w2 := Work(p, env, w, fn).0;
      Steady(p, d0, w2, gaps) && GivenFrom(p, w2.disk, fn) && w2.disk.checkpoints == w.disk.checkpoints
  {
    var w1 := w.(trace := w.trace + [fn.Stage()]);
    assert Steady(p, d0, w1, gaps);
    if fn.Embed? {
      var k := Min(env.attempt(|w.trace|).rows, |fn.chunks|);
      ChunkIdsOfTable(p, w.disk.chunks);
      UpsertedSteady(p, d0, w1, gaps, fn.chunks[..k]);
      UpsertedRows(p, w1, fn.chunks[..k]);
    }
  }

  lemma ParsedSteady(p: Plugins, env: Env, d0: Disk, w: World, gaps: nat)
    requires p.Valid() && env.Valid() && Steady(p, d0, w, gaps)
    requires Work(p, env, w, Parse).1.Success?
    ensures var (w2, r) := Work(p, env, w, Parse);
      Steady(p, d0, Did(w2, SaveCheckpoint(PARSING, r.value)), gaps)
  {
    var w1 := w.(trace := w.trace + [PARSING]);
    assert Steady(p, d0, w1, gaps);
    AtomsAgain(p, w.disk);
    DidSound(p, d0, w1, gaps, SaveAtoms(p.parsed));
    var w2 := Work(p, env, w, Parse).0;
    DidSound(p, d0, w2, gaps, SaveCheckpoint(PARSING, AtomIds(p.parsed)));
  }

  /** Right after the chunks are stored there is one copy more than checkpoints account for. */
  lemma ChunksStored(p: Plugins, d: Disk, gaps: nat, ids: seq<Id>)
    requires p.Valid() && Inv(p, d, gaps) && PARSING in d.checkpoints && !Checkpointed(d, CHUNKING)
    requires NewIds(ids, d.chunks.Keys, |Bodies(p)|)
    ensures Inv(p, Apply(d, SaveChunks(WithIds(ids, Bodies(p)))), gaps + 1)
    ensures Inv(p, Apply(Apply(d, SaveChunks(WithIds(ids, Bodies(p)))), SaveCheckpoint(CHUNKING, ids)), gaps)
  {
    var d1 := Apply(d, SaveChunks(WithIds(ids, Bodies(p))));
    OneMoreCopy(d.chunks, ids, Bodies(p), gaps + Bit(CHUNKING in d.checkpoints));
    forall id | id in d.rows ensures id in d1.chunks && d1.chunks[id] == d.chunks[id] {
      PutChunksKeep(d.chunks, ids, Bodies(p), id);
    }
    if CHUNKING in d.checkpoints {
      assert Bodies(p) == [];
      assert d1 == d;
      AnyCopies(d.chunks, gaps + 1, gaps + 2);
    }
    assert ChunkedOk(p, d1, gaps + 1);
    assert EmbeddedOk(p, d1);
  }

  /** Without bodies any number of copies is none. */
  lemma AnyCopies(chunks: map<Id, Body>, n: nat, m: nat)
    requires Copies(chunks, [], n)
    ensures Copies(chunks, [], m)
  {
  }

  lemma ChunkedSteady(p: Plugins, env: Env, d0: Disk, w: World, gaps: nat, fn: StageFn)
    requires p.Valid() && env.Valid() && Steady(p, d0, w, gaps) && GivenFrom(p, w.disk, fn)
    requires fn.MakeChunks? && !Checkpointed(w.disk, CHUNKING)
    requires Work(p, env, w, fn).1.Success?
    ensures var (w2, r) := Work(p, env, w, fn);
      Steady(p, d0, Did(w2, SaveCheckpoint(CHUNKING, r.value)), gaps)
  {
    var w1 := w.(trace := w.trace + [CHUNKING]);
    assert Steady(p, d0, w1, gaps);
    var ids := env.newIds(|w.trace|, w.disk.chunks.Keys, |Bodies(p)|);
    assert NewIds(ids, w.disk.chunks.Keys, |Bodies(p)|);
    assert Work(p, env, w, fn) == (Did(w1, SaveChunks(WithIds(ids, Bodies(p)))), Success(ids));
    StoredAndChecked(p, d0, w1, gaps, ids);
  }

  lemma StoredAndChecked(p: Plugins, d0: Disk, w: World, gaps: nat, ids: seq<Id>)
    requires p.Valid() && Steady(p, d0, w, gaps) && PARSING in w.disk.checkpoints && !Checkpointed(w.disk, CHUNKING)
    requires NewIds(ids, w.disk.chunks.Keys, |Bodies(p)|)
    ensures Steady(p, d0, Did(Did(w, SaveChunks(WithIds(ids, Bodies(p)))), SaveCheckpoint(CHUNKING, ids)), gaps)
  {
    ChunksStored(p, w.disk, gaps, ids);
    var stored := Did(w, SaveChunks(WithIds(ids, Bodies(p))));
    DidSound(p, d0, w, gaps, SaveChunks(WithIds(ids, Bodies(p))));
    DidSound(p, d0, stored, gaps, SaveCheckpoint(CHUNKING, ids));
  }

  lemma RowsNowComplete(p: Plugins, d: Disk, gaps: nat, ids: seq<Id>)
    requires p.Valid() && Inv(p, d, gaps) && CHUNKING in d.checkpoints
    requires SetOf(ids) == d.chunks.Keys && SetOf(ids) <= d.rows.Keys
    ensures Inv(p, Apply(d, SaveCheckpoint(EMBEDDING, ids)), gaps)
  {
  }

  lemma EmbeddedSteady(p: Plugins, env: Env, d0: Disk, w: World, gaps: nat, fn: StageFn)
    requires p.Valid() && env.Valid() && Steady(p, d0, w, gaps) && GivenFrom(p, w.disk, fn)
    requires fn.Embed? && Work(p, env, w, fn).1.Success?
    ensures var (w2, r) := Work(p, env, w, fn);
      Steady(p, d0, Did(w2, SaveCheckpoint(EMBEDDING, r.value)), gaps)
  {
    var w1 := w.(trace := w.trace + [EMBEDDING]);
    assert Steady(p, d0, w1, gaps);
    ChunkIdsOfTable(p, w.disk.chunks);
    UpsertedSteady(p, d0, w1, gaps, fn.chunks);
    UpsertedRows(p, w1, fn.chunks);
    var w2 := Work(p, env, w, fn).0;
    RowsNowComplete(p, w2.disk, gaps, ChunkIds(fn.chunks));
    DidSound(p, d0, w2, gaps, SaveCheckpoint(EMBEDDING, ChunkIds(fn.chunks)));
  }

  lemma MadeSteady(p: Plugins, env: Env, d0: Disk, w: World, gaps: nat, fn: StageFn)
    requires p.Valid() && env.Valid() && Steady(p, d0, w, gaps) && GivenFrom(p, w.disk, fn)
    requires !Checkpointed(w.disk, fn.Stage()) && Work(p, env, w, fn).1.Success?
    ensures var (w2, r) := Work(p, env, w, fn);
      Steady(p, d0, Did(w2, SaveCheckpoint(fn.Stage(), r.value)), gaps)
  {
    match fn
    case Parse => ParsedSteady(p, env, d0, w, gaps);
    case MakeChunks(_) => ChunkedSteady(p, env, d0, w, gaps, fn);
    case Embed(_) => EmbeddedSteady(p, env, d0, w, gaps, fn);
  }

  lemma TrySteady(p: Plugins, env: Env, d0: Disk, w: World, gaps: nat, fn: StageFn)
    requires p.Valid() && env.Valid() && Steady(p, d0, w, gaps) && GivenFrom(p, w.disk, fn)
    requires !Checkpointed(w.disk, fn.Stage())
    ensures var (w2, r) := TryStage(p, env, w, fn);
      && Steady(p, d0, w2, gaps)
      && (r.Success? ==> fn.Stage() in w2.disk.checkpoints)
      && (r.Failure? ==> GivenFrom(p, w2.disk, fn))
  {
    var w1 := Saved(w, w.task.(status := fn.Stage()));
    SaveTaskSteady(p, d0, w, gaps, w.task.(status := fn.Stage()));
    var (w2, made) := Work(p, env, w1, fn);
    if made.Success? {
      MadeSteady(p, env, d0, w1, gaps, fn);
    } else {
      RaisedSteady(p, env, d0, w1, gaps, fn);
      SaveTaskSteady(p, d0, w2, gaps, Blamed(p, w1.task, made.error));
    }
  }

  /** A stage keeps the invariant through every attempt; when it succeeds its checkpoint is there. */
  lemma {:induction false} StageSteady(p: Plugins, env: Env, d0: Disk, w: World, gaps: nat, fn: StageFn)
    requires p.Valid() && env.Valid() && Steady(p, d0, w, gaps) && GivenFrom(p, w.disk, fn)
    ensures var (w2, r) := StageRun(p, env, w, fn);
      Steady(p, d0, w2, gaps) && (r.Success? ==> fn.Stage() in w2.disk.checkpoints)
    decreases Left(p, w)
  {
    if !Checkpointed(w.disk, fn.Stage()) {
      var (w2, made) := TryStage(p, env, w, fn);
      TrySteady(p, env, d0, w, gaps, fn);
      if made.Failure? && w2.task.status != FAILED { StageSteady(p, env, d0, w2, gaps, fn); }
    }
  }

  // -- whole runs

  /** Nothing of this document is stored yet. */
  predicate Fresh(d: Disk) {
    d.checkpoints == map[] && d.atoms == map[] && d.chunks == map[] && d.rows == map[]
  }

  /** All atoms, n copies of every chunk, and for every chunk the row of its vector. */
  ghost predicate Complete(p: Plugins, d: Disk, n: nat)
    requires p.Valid()
  {
    && d.atoms == AtomTable(p)
    && Copies(d.chunks, Bodies(p), n)
    && d.rows == (map id | id in d.chunks :: RowOf(p, d.chunks[id]))
    && d.task.status == DONE
  }

  lemma FreshInv(p: Plugins, d: Disk)
    requires p.Valid() && Fresh(d)
    ensures Inv(p, d, 0)
  {
  }

  lemma StartSteady(p: Plugins, d: Disk, gaps: nat)
    requires p.Valid() && Inv(p, d, gaps)
    ensures Steady(p, d, Start(d), gaps)
  {
  }

  /** The stage before this one left its checkpoint. */
  predicate Reached(d: Disk, stage: Status) {
    match stage
    case CHUNKING => PARSING in d.checkpoints
    case EMBEDDING => CHUNKING in d.checkpoints
    case DONE => EMBEDDING in d.checkpoints
    case _ => stage == PARSING
  }

  lemma {:induction false} RunFromSteady(p: Plugins, env: Env, d0: Disk, w: World, gaps: nat, stage: Status)
    requires p.Valid() && env.Valid() && Steady(p, d0, w, gaps) && Reached(w.disk, stage)
    ensures var (w2, r) := RunFrom(p, env, w, stage);
      Steady(p, d0, w2, gaps) && (r.Success? ==> Complete(p, w2.disk, gaps + 1))
    decreases StagesLeft(stage)
  {
    if StagesLeft(stage) == 0 {
      SaveTaskSteady(p, d0, w, gaps, w.task.(status := DONE, progress := 1.0));
    } else {
      StageSteady(p, env, d0, w, gaps, FnFor(p, w.disk, stage));
      var (w1, r) := StageRun(p, env, w, FnFor(p, w.disk, stage));
      if r.Success? { RunFromSteady(p, env, d0, w1, gaps, Next(stage)); }
    }
  }

  /** Whatever a run does, every crash point is covered, and success means the disk is complete. */
  lemma RunSteady(p: Plugins, env: Env, d: Disk, gaps: nat)
    requires p.Valid() && env.Valid() && Inv(p, d, gaps)
    ensures var (w, r) := FullRun(p, env, d);
      Steady(p, d, w, gaps) && (r.Success? ==> Complete(p, w.disk, gaps + 1))
  {
    StartSteady(p, d, gaps);
    RunFromSteady(p, env, d, Start(d), gaps, PARSING);
  }

  lemma SurvivesInv(p: Plugins, d: Disk, life: Life, gaps: nat)
    requires p.Valid() && life.env.Valid() && Inv(p, d, gaps)
    ensures var log := LogOf(p, d, life.env);
      Inv(p, Survives(p, d, life), gaps + Gap(log, Min(life.cut, |log|)))
  {
    RunSteady(p, life.env, d, gaps);
    var log := LogOf(p, d, life.env);
    PrefixInv(p, d, log, gaps, Min(life.cut, |log|));
  }

  /** The invariant after any number of crashed, failed or finished runs. */
  lemma {:induction false} LivesInv(p: Plugins, d: Disk, lives: seq<Life>)
    requires p.Valid() && Fresh(d) && AllValid(lives)
    ensures Inv(p, AfterLives(p, d, lives), Gaps(p, d, lives))
    decreases lives
  {
    if lives == [] {
      FreshInv(p, d);
    } else {
      var before, last := lives[..|lives| - 1], lives[|lives| - 1];
      LivesInv(p, d, before);
      SurvivesInv(p, AfterLives(p, d, before), last, Gaps(p, d, before));
    }
  }

  /** A run from this disk succeeds and leaves that one. */
  ghost predicate Finishes(p: Plugins, d: Disk, env: Env, end: Disk)
    requires p.Valid() && env.Valid()
  {
    FullRun(p, env, d).1.Success? && FullRun(p, env, d).0.disk == end
  }

  /**
    Replaying to success after any history: all atoms, every chunk body once plus
    once for each crash between storing the chunks and their checkpoint, and
    exactly the vector rows of the stored chunks.
  */
  lemma ReplayCompletes(p: Plugins, d: Disk, lives: seq<Life>, env: Env, end: Disk)
    requires p.Valid() && Fresh(d) && AllValid(lives) && env.Valid()
    requires Finishes(p, AfterLives(p, d, lives), env, end)
    ensures Complete(p, end, Gaps(p, d, lives) + 1)
  {
    LivesInv(p, d, lives);
    RunSteady(p, env, AfterLives(p, d, lives), Gaps(p, d, lives));
  }

  lemma OnceCompletes(p: Plugins, d: Disk, once: Env, end: Disk)
    requires p.Valid() && Fresh(d) && once.Valid() && Finishes(p, d, once, end)
    ensures Complete(p, end, 1)
  {
    FreshInv(p, d);
    RunSteady(p, once, d, 0);
  }

  function RowCount(rows: map<Id, Row>, row: Row): nat {
    |set id | id in rows && rows[id] == row|
  }

  /** The same atoms, chunks and vector rows, up to the ids of the chunks. */
  ghost predicate SameContent(a: Disk, b: Disk) {
    && a.atoms == b.atoms
    && (forall body :: Count(a.chunks, body) == Count(b.chunks, body))
    && (forall row :: RowCount(a.rows, row) == RowCount(b.rows, row))
  }

  lemma RowsFollowChunks(p: Plugins, d: Disk, row: Row)
    requires d.rows == map id | id in d.chunks :: RowOf(p, d.chunks[id])
    ensures RowCount(d.rows, row)
      == if row == RowOf(p, Body(row.atomIds, row.content)) then Count(d.chunks, Body(row.atomIds, row.content)) else 0
  {
    var body := Body(row.atomIds, row.content);
    var ids := set id | id in d.rows && d.rows[id] == row;
    assert ids == if row == RowOf(p, body) then Holders(d.chunks, body) else {};
  }

  lemma CompleteSame(p: Plugins, a: Disk, b: Disk, n: nat, m: nat)
    requires p.Valid() && Complete(p, a, n) && Complete(p, b, m)
    requires n == m || Bodies(p) == []
    ensures SameContent(a, b)
  {
    forall body ensures Count(a.chunks, body) == Count(b.chunks, body) {
      assert Count(a.chunks, body) == Times(n, multiset(Bodies(p))[body]);
      assert Count(b.chunks, body) == Times(m, multiset(Bodies(p))[body]);
      TimesNext(n, 0);
      TimesNext(m, 0);
    }
    forall row ensures RowCount(a.rows, row) == RowCount(b.rows, row) {
      RowsFollowChunks(p, a, row);
      RowsFollowChunks(p, b, row);
    }
  }

  lemma {:induction false} TimesGrows(n: nat, m: nat, k: nat)
    requires n > m && k > 0
    ensures Times(n, k) > Times(m, k)
  {
    TimesNext(n - 1, k);
    if n - 1 > m { TimesGrows(n - 1, m, k); }
  }

  lemma MoreCopiesDiffer(p: Plugins, a: Disk, b: Disk, n: nat, m: nat)
    requires p.Valid() && Complete(p, a, n) && Complete(p, b, m) && n > m && Bodies(p) != []
    ensures !SameContent(a, b)
  {
    var body := Bodies(p)[0];
    var k := multiset(Bodies(p))[body];
    assert body in multiset(Bodies(p));
    assert Count(a.chunks, body) == Times(n, k) && Count(b.chunks, body) == Times(m, k);
    TimesGrows(n, m, k);
  }

  lemma CompleteCompared(p: Plugins, a: Disk, b: Disk, n: nat, m: nat)
    requires p.Valid() && Complete(p, a, n) && Complete(p, b, m) && n >= m
    ensures SameContent(a, b) <==> n == m || Bodies(p) == []
  {
    if n == m || Bodies(p) == [] {
      CompleteSame(p, a, b, n, m);
    } else {
      MoreCopiesDiffer(p, a, b, n, m);
    }
  }

  /**
    A task that was run any number of times, each run dying at any commit, failing
    or finishing, and then runs to success stores the same as one uninterrupted
    run, if and only if no run died between storing the chunks and their
    checkpoint (or there is nothing to chunk).
  */
  lemma ReplayEqualsUninterrupted(p: Plugins, d: Disk, lives: seq<Life>, env: Env, end: Disk, once: Env, first: Disk)
    requires p.Valid() && Fresh(d) && AllValid(lives) && env.Valid() && once.Valid()
    requires Finishes(p, AfterLives(p, d, lives), env, end)
    requires Finishes(p, d, once, first)
    ensures SameContent(end, first) <==> Gaps(p, d, lives) == 0 || Bodies(p) == []
  {
    var gaps := Gaps(p, d, lives);
    ReplayCompletes(p, d, lives, env, end);
    OnceCompletes(p, d, once, first);
    CompleteCompared(p, end, first, gaps + 1, 1);
  }

  // -- the gap can be hit

  lemma {:induction false} UpsertedGrows(p: Plugins, w: World, chunks: seq<Chunk>)
    ensures w.log <= Upserted(p, w, chunks).log
    decreases chunks
  {
    if chunks != [] { UpsertedGrows(p, w, chunks[..|chunks| - 1]); }
  }

  lemma TryGrows(p: Plugins, env: Env, w: World, fn: StageFn)
    requires env.Valid()
    ensures w.log <= TryStage(p, env, w, fn).0.log
  {
    if fn.Embed? {
      var w1 := Saved(w, w.task.(status := fn.Stage()));
      var w2 := w1.(trace := w1.trace + [fn.Stage()]);
      match env.attempt(|w1.trace|)
      case Raises(_, k) => UpsertedGrows(p, w2, fn.chunks[..Min(k, |fn.chunks|)]);
      case Completes => UpsertedGrows(p, w2, fn.chunks);
    }
  }

  lemma {:induction false} StageGrows(p: Plugins, env: Env, w: World, fn: StageFn)
    requires env.Valid()
    ensures w.log <= StageRun(p, env, w, fn).0.log
    decreases Left(p, w)
  {
    if !Checkpointed(w.disk, fn.Stage()) {
      var (w2, made) := TryStage(p, env, w, fn);
      TryGrows(p, env, w, fn);
      if made.Failure? && w2.task.status != FAILED { StageGrows(p, env, w2, fn); }
    }
  }

  lemma {:induction false} RunGrows(p: Plugins, env: Env, w: World, stage: Status)
    requires p.Valid() && env.Valid()
    ensures w.log <= RunFrom(p, env, w, stage).0.log
    decreases StagesLeft(stage)
  {
    if StagesLeft(stage) > 0 {
      StageGrows(p, env, w, FnFor(p, w.disk, stage));
      var (w1, r) := StageRun(p, env, w, FnFor(p, w.disk, stage));
      if r.Success? { RunGrows(p, env, w1, Next(stage)); }
    }
  }

  /** A run in which nothing fails stores the chunks with its fifth commit; dying right there is a gap. */
  lemma FifthCommitIsGap(p: Plugins, d: Disk, env: Env)
    requires p.Valid() && Fresh(d) && env.Valid() && env.attempt(0) == env.attempt(1) == Completes
    ensures Gaps(p, d, [Life(env, 5)]) == 1
  {
    var w := Start(d);
    var (w1, r1) := StageRun(p, env, w, FnFor(p, d, PARSING));
    assert StageRun(p, env, w, FnFor(p, d, PARSING)) == TryStage(p, env, w, Parse);
    assert |w1.log| == 3 && |w1.trace| == 1;
    var fn := FnFor(p, w1.disk, CHUNKING);
    var (w2, r2) := StageRun(p, env, w1, fn);
    assert StageRun(p, env, w1, fn) == TryStage(p, env, w1, fn);
    assert |w2.log| == 6 && w2.log[4].SaveChunks?;
    RunGrows(p, env, w2, EMBEDDING);
    assert RunFrom(p, env, w, PARSING) == RunFrom(p, env, w1, CHUNKING) == RunFrom(p, env, w2, EMBEDDING);
    assert w2.log <= LogOf(p, d, env);
    assert [Life(env, 5)][..0] == [];
  }

  // -- a finished stage is not run again

  /** An upsert leaves the task, the calls and the checkpoints alone. */
  lemma {:induction false} UpsertedTask(p: Plugins, w: World, chunks: seq<Chunk>)
    ensures var w2 := Upserted(p, w, chunks);
      w2.task == w.task && w2.trace == w.trace && w2.disk.checkpoints == w.disk.checkpoints
    decreases chunks
  {
    if chunks != [] { UpsertedTask(p, w, chunks[..|chunks| - 1]); }
  }

  lemma WorkCalls(p: Plugins, env: Env, w: World, fn: StageFn)
    requires env.Valid()
    ensures var (w2, r) := Work(p, env, w, fn);
      && w2.trace == w.trace + [fn.Stage()] && w2.task == w.task
      && (r.Success? <==> env.attempt(|w.trace|).Completes?)
      && (r.Failure? ==> r.error == env.attempt(|w.trace|).e)
      && w2.disk.checkpoints == w.disk.checkpoints
  {
    if fn.Embed? {
      var w1 := w.(trace := w.trace + [fn.Stage()]);
      match env.attempt(|w.trace|)
      case Raises(_, k) => UpsertedTask(p, w1, fn.chunks[..Min(k, |fn.chunks|)]);
      case Completes => UpsertedTask(p, w1, fn.chunks);
    }
  }

  /** The stage was not called, and no commit touched its checkpoint. */
  ghost predicate Untouched(w: World, stage: Status) {
    && stage !in w.trace
    && forall k :: 0 <= k < |w.log| ==> !(w.log[k].SaveCheckpoint? && w.log[k].stage == stage)
  }

  lemma {:induction false} UntouchedCheckpoint(d: Disk, log: seq<Commit>, stage: Status)
    requires stage in d.checkpoints
    requires forall k :: 0 <= k < |log| ==> !(log[k].SaveCheckpoint? && log[k].stage == stage)
    ensures stage in Replay(d, log).checkpoints && Replay(d, log).checkpoints[stage] == d.checkpoints[stage]
  {
    if log != [] { UntouchedCheckpoint(d, log[..|log| - 1], stage); }
  }

  lemma {:induction false} UpsertedUntouched(p: Plugins, w: World, chunks: seq<Chunk>, stage: Status)
    requires Untouched(w, stage)
    ensures Untouched(Upserted(p, w, chunks), stage)
    decreases chunks
  {
    if chunks != [] { UpsertedUntouched(p, w, chunks[..|chunks| - 1], stage); }
  }

  lemma WorkUntouched(p: Plugins, env: Env, w: World, fn: StageFn, stage: Status)
    requires env.Valid() && Untouched(w, stage) && fn.Stage() != stage
    ensures Untouched(Work(p, env, w, fn).0, stage)
  {
    var w1 := w.(trace := w.trace + [fn.Stage()]);
    if fn.Embed? {
      match env.attempt(|w.trace|)
      case Raises(_, k) => UpsertedUntouched(p, w1, fn.chunks[..Min(k, |fn.chunks|)], stage);
      case Completes => UpsertedUntouched(p, w1, fn.chunks, stage);
    }
  }

  lemma TryUntouched(p: Plugins, env: Env, w: World, fn: StageFn, stage: Status)
    requires env.Valid() && Untouched(w, stage) && Checkpointed(w.disk, stage) && fn.Stage() != stage
    ensures var w2 := TryStage(p, env, w, fn).0;
      Untouched(w2, stage) && Checkpointed(w2.disk, stage)
  {
    var w1 := Saved(w, w.task.(status := fn.Stage()));
    WorkUntouched(p, env, w1, fn, stage);
    WorkCalls(p, env, w1, fn);
  }

  lemma {:induction false} StageUntouched(p: Plugins, env: Env, w: World, fn: StageFn, stage: Status)
    requires env.Valid() && Untouched(w, stage) && Checkpointed(w.disk, stage)
    ensures var w2 := StageRun(p, env, w, fn).0;
      Untouched(w2, stage) && Checkpointed(w2.disk, stage)
    decreases Left(p, w)
  {
    if !Checkpointed(w.disk, fn.Stage()) {
      var (w2, made) := TryStage(p, env, w, fn);
      TryUntouched(p, env, w, fn, stage);
      if made.Failure? && w2.task.status != FAILED { StageUntouched(p, env, w2, fn, stage); }
    }
  }

  lemma {:induction false} RunUntouched(p: Plugins, env: Env, w: World, from: Status, stage: Status)
    requires p.Valid() && env.Valid() && Untouched(w, stage) && Checkpointed(w.disk, stage)
    ensures Untouched(RunFrom(p, env, w, from).0, stage)
    decreases StagesLeft(from)
  {
    if StagesLeft(from) > 0 {
      StageUntouched(p, env, w, FnFor(p, w.disk, from), stage);
      var (w1, r) := StageRun(p, env, w, FnFor(p, w.disk, from));
      if r.Success? { RunUntouched(p, env, w1, Next(from), stage); }
    }
  }

  /** Once a stage has a non-empty checkpoint, no later run, crashed or not, calls it or changes that checkpoint. */
  lemma {:induction false} NeverAgain(p: Plugins, d: Disk, lives: seq<Life>, env: Env, stage: Status)
    requires p.Valid() && AllValid(lives) && env.Valid() && Checkpointed(d, stage)
    ensures var d2 := AfterLives(p, d, lives);
      && stage in d2.checkpoints && d2.checkpoints[stage] == d.checkpoints[stage]
      && stage !in FullRun(p, env, d2).0.trace
    decreases lives
  {
    if lives != [] {
      var before, last := lives[..|lives| - 1], lives[|lives| - 1];
      NeverAgain(p, d, before, last.env, stage);
      var d1 := AfterLives(p, d, before);
      RunUntouched(p, last.env, Start(d1), PARSING, stage);
      var log := LogOf(p, d1, last.env);
      UntouchedCheckpoint(d1, log[..Min(last.cut, |log|)], stage);
    }
    RunUntouched(p, env, Start(AfterLives(p, d, lives)), PARSING, stage);
  }

  // -- retries

  function Max(a: nat, b: nat): nat { if a >= b then a else b }

  /** The n-th stage call raised, and the exception was one to retry. */
  predicate RaisedRetryably(env: Env, n: nat) {
    env.attempt(n).Raises? && IsRetryable(env.attempt(n).e)
  }

  /** The calls of a stage are its first one and a retry after each retryable failure while attempts last. */
  ghost predicate RetriedRight(p: Plugins, env: Env, w: World, w2: World, r: Result<seq<Id>, Exn>) {
    var n, calls := |w.trace|, |w2.trace| - |w.trace|;
    && 1 <= calls <= Max(1, Left(p, w))
    && (forall i :: n <= i < n + calls - 1 ==> RaisedRetryably(env, i))
    && (r.Success? <==> env.attempt(n + calls - 1).Completes?)
    && w2.task.attempts == w.task.attempts + calls - Bit(r.Success?)
    && (r.Failure? ==>
          && env.attempt(n + calls - 1).e == r.error
          && (w2.task.attempts >= p.maxAttempts || !IsRetryable(r.error))
          && w2.task.status == FAILED && w2.task.error == Some(r.error) && w2.disk.task == w2.task)
  }

  lemma TryCalls(p: Plugins, env: Env, w: World, fn: StageFn)
    requires env.Valid()
    ensures var (w2, r) := TryStage(p, env, w, fn);
      && w2.trace == w.trace + [fn.Stage()]
      && (r.Success? <==> env.attempt(|w.trace|).Completes?)
      && (r.Success? ==> w2.task == w.task.(status := fn.Stage()))
      && (r.Failure? ==>
            && r.error == env.attempt(|w.trace|).e
            && w2.disk.checkpoints == w.disk.checkpoints
            && w2.disk.task == w2.task == Blamed(p, w.task.(status := fn.Stage()), r.error))
  {
    WorkCalls(p, env, Saved(w, w.task.(status := fn.Stage())), fn);
  }

  lemma {:induction false} RetrySpec(p: Plugins, env: Env, w: World, fn: StageFn)
    requires env.Valid() && !Checkpointed(w.disk, fn.Stage())
    ensures RetriedRight(p, env, w, StageRun(p, env, w, fn).0, StageRun(p, env, w, fn).1)
    decreases Left(p, w)
  {
    TryCalls(p, env, w, fn);
    var (w2, made) := TryStage(p, env, w, fn);
    if made.Failure? && w2.task.status != FAILED {
      RetrySpec(p, env, w2, fn);
      assert RaisedRetryably(env, |w.trace|);
    }
  }

  // ------------------------------------------------------------------- the runner

  lemma NextStage(p: Plugins, env: Env, w: World, stage: Status)
    requires p.Valid() && env.Valid() && StagesLeft(stage) > 0
    ensures RunFrom(p, env, w, stage)
      == var (w1, r) := StageRun(p, env, w, FnFor(p, w.disk, stage));
         if r.Failure? then (w1, Failure(r.error)) else RunFrom(p, env, w1, Next(stage))
  {
  }

  lemma LastStage(p: Plugins, env: Env, w: World)
    requires p.Valid() && env.Valid()
    ensures RunFrom(p, env, w, DONE) == (Saved(w, w.task.(status := DONE, progress := 1.0)), Success(()))
  {
  }

  /** The metadata database and the vector table; every method is one commit, the upsert one per row. */
  class Stores {
    var task: Task
    var checkpoints: map<Status, seq<Id>>
    var atoms: map<Id, string>
    var chunks: map<Id, Body>
    var rows: map<Id, Row>
    ghost var log: seq<Commit>

    function OnDisk(): Disk
      reads this
    {
      Disk(task, checkpoints, atoms, chunks, rows)
    }

    constructor (disk: Disk)
      ensures OnDisk() == disk && log == []
    {
      task, checkpoints, atoms, chunks, rows := disk.task, disk.checkpoints, disk.atoms, disk.chunks, disk.rows;
      log := [];
    }

    method SaveTask(saved: Task)
      modifies this
      ensures OnDisk() == Apply(old(OnDisk()), Commit.SaveTask(saved)) && log == old(log) + [Commit.SaveTask(saved)]
    {
      task := saved;
      log := log + [Commit.SaveTask(saved)];
    }

    method SaveCheckpoint(stage: Status, produced: seq<Id>)
      modifies this
      ensures OnDisk() == Apply(old(OnDisk()), Commit.SaveCheckpoint(stage, produced))
      ensures log == old(log) + [Commit.SaveCheckpoint(stage, produced)]
    {
      checkpoints := checkpoints[stage := produced];
      log := log + [Commit.SaveCheckpoint(stage, produced)];
    }

    method GetCheckpoint(stage: Status) returns (r: Option<seq<Id>>)
      ensures r == if stage in checkpoints then Some(checkpoints[stage]) else None
    {
      r := if stage in checkpoints then Some(checkpoints[stage]) else None;
    }

    /** Row by row, committed together. */
    method SaveAtoms(saved: seq<Atom>)
      modifies this
      ensures OnDisk() == Apply(old(OnDisk()), Commit.SaveAtoms(saved)) && log == old(log) + [Commit.SaveAtoms(saved)]
    {
      var pending := atoms;
      for i := 0 to |saved|
        invariant pending == PutAtoms(atoms, saved[..i])
      {
        assert saved[..i + 1][..i] == saved[..i];
        pending := pending[saved[i].id := saved[i].content];
      }
      assert saved[..|saved|] == saved;
      atoms := pending;
      log := log + [Commit.SaveAtoms(saved)];
    }

    /** Row by row, committed together. */
    method SaveChunks(saved: seq<Chunk>)
      modifies this
      ensures OnDisk() == Apply(old(OnDisk()), Commit.SaveChunks(saved)) && log == old(log) + [Commit.SaveChunks(saved)]
    {
      var pending := chunks;
      for i := 0 to |saved|
        invariant pending == PutChunks(chunks, saved[..i])
      {
        assert saved[..i + 1][..i] == saved[..i];
        var c := saved[i];
        if c.id in pending {
          pending := pending[c.id := pending[c.id].(content := c.body.content)];
        } else {
          pending := pending[c.id := c.body];
        }
      }
      assert saved[..|saved|] == saved;
      chunks := pending;
      log := log + [Commit.SaveChunks(saved)];
    }

    method PutRow(c: Chunk, vector: seq<real>)
      modifies this
      ensures OnDisk() == Apply(old(OnDisk()), Commit.PutRow(c, vector)) && log == old(log) + [Commit.PutRow(c, vector)]
    {
      if c.id in rows {
        rows := rows[c.id := rows[c.id].(content := c.body.content, vector := vector)];
      } else {
        rows := rows[c.id := Row(c.body.atomIds, c.body.content, vector)];
      }
      log := log + [Commit.PutRow(c, vector)];
    }
  }

  class IngestionPipeline {
    const plugins: Plugins
    const env: Env
    const db: Stores
    var task: Task
    var trace: seq<Status>

    ghost function Now(): World
      reads this, db
    {
      World(db.OnDisk(), task, trace, db.log)
    }

    /** Loads the task row, as a worker does before a run. */
    constructor (plugins: Plugins, env: Env, db: Stores)
      requires db.log == []
      ensures this.plugins == plugins && this.env == env && this.db == db
      ensures Now() == Start(db.OnDisk())
    {
      this.plugins, this.env, this.db := plugins, env, db;
      task, trace := db.task, [];
    }

    method UpsertRows(chunks: seq<Chunk>)
      modifies db
      ensures Now() == Upserted(plugins, old(Now()), chunks)
    {
      for i := 0 to |chunks|
        invariant Now() == Upserted(plugins, old(Now()), chunks[..i])
      {
        assert chunks[..i + 1][..i] == chunks[..i];
        db.PutRow(chunks[i], plugins.embed(chunks[i].body.content));
      }
      assert chunks[..|chunks|] == chunks;
    }

    /** One call of a stage function. */
    method Perform(fn: StageFn) returns (r: Result<seq<Id>, Exn>)
      requires env.Valid()
      modifies this, db
      ensures (Now(), r) == Work(plugins, env, old(Now()), fn)
    {
      var n := |trace|;
      trace := trace + [fn.Stage()];
      match env.attempt(n)
      case Raises(e, k) =>
        if fn.Embed? {
          UpsertRows(fn.chunks[..Min(k, |fn.chunks|)]);
        }
        return Failure(e);
      case Completes =>
        match fn
        case Parse =>
          db.SaveAtoms(plugins.parsed);
          return Success(AtomIds(plugins.parsed));
        case MakeChunks(atoms) =>
          var bodies := plugins.chunker(atoms);
          var ids := env.newIds(n, db.chunks.Keys, |bodies|);
          assert NewIds(ids, db.chunks.Keys, |bodies|);
          db.SaveChunks(WithIds(ids, bodies));
          return Success(ids);
        case Embed(chunks) =>
          UpsertRows(chunks);
          return Success(ChunkIds(chunks));
    }

    /** One attempt at a stage. */
    method TryOnce(fn: StageFn) returns (r: Result<seq<Id>, Exn>)
      requires env.Valid()
      modifies this, db
      ensures (Now(), r) == TryStage(plugins, env, old(Now()), fn)
    {
      task := task.(status := fn.Stage());
      db.SaveTask(task);
      WorkCalls(plugins, env, Now(), fn);
      r := Perform(fn);
      match r
      case Success(ids) =>
        db.SaveCheckpoint(fn.Stage(), ids);
      case Failure(e) =>
        task := task.(attempts := task.attempts + 1, error := Some(e));
        if task.attempts >= plugins.maxAttempts || !IsRetryable(e) {
          task := task.(status := FAILED);
        }
        db.SaveTask(task);
    }

    /** The checkpoint wrapper: a finished stage is skipped, a failed attempt re-enters the stage. */
    method RunStage(fn: StageFn) returns (r: Result<seq<Id>, Exn>)
      requires env.Valid()
      modifies this, db
      ensures (Now(), r) == StageRun(plugins, env, old(Now()), fn)
      decreases Left(plugins, Now())
    {
      var ckpt := db.GetCheckpoint(fn.Stage());
      if ckpt.Some? && ckpt.value != [] {
        return Success(ckpt.value);
      }
      r := TryOnce(fn);
      if r.Failure? && task.status != FAILED {
        r := RunStage(fn);
      }
    }

    /** All stages in order, each fed from the database, then the task is done. */
    method Run() returns (r: Result<(), Exn>)
      requires env.Valid() && plugins.Valid()
      modifies this, db
      ensures (Now(), r) == RunFrom(plugins, env, old(Now()), PARSING)
    {
      NextStage(plugins, env, Now(), PARSING);
      var parsed := RunStage(Parse);
      if parsed.Failure? {
        return Failure(parsed.error);
      }
      NextStage(plugins, env, Now(), CHUNKING);
      var atoms := GetAtoms(plugins, db.atoms);
      var chunked := RunStage(MakeChunks(atoms));
      if chunked.Failure? {
        return Failure(chunked.error);
      }
      NextStage(plugins, env, Now(), EMBEDDING);
      var chunks := GetChunks(plugins, db.chunks);
      var embedded := RunStage(Embed(chunks));
      if embedded.Failure? {
        return Failure(embedded.error);
      }
      LastStage(plugins, env, Now());
      task := task.(status := DONE, progress := 1.0);
      db.SaveTask(task);
      return Success(());
    }
  }
}

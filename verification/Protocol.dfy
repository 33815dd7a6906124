/** What the trusted executor is meant to do, without masks: a small state machine over
    the open bracket, whose offloads return plain products. */
module Protocol {
  import opened LinAlg
  import opened Masks

  // ─── the engine ───

  datatype WeightKind = Q | K | V | Other(tag: nat)

  datatype WeightHandle = WeightHandle(layer: nat, kind: WeightKind)

  datatype Weight = Weight(m: Mat, d: nat, p: nat)

  type Engine = map<WeightHandle, Weight>

  ghost predicate ValidEngine(engine: Engine) {
    forall h :: h in engine ==> IsMat(engine[h].m, engine[h].d, engine[h].p)
  }

  datatype Error =
    | NotRegistered(h: WeightHandle)
    | ShapeMismatch(cols: nat, rows: nat)
    | NotCached(h: WeightHandle)
    | VerifyFailed
    | EmptyBatch
    | EmptySequence
    | NeedsPerForward

  /** `Panic` is a failed assertion in the executor, distinct from an error it returns. */
  datatype Outcome<T> = Ok(value: T) | Err(error: Error) | Panic

  function Matmul(engine: Engine, h: WeightHandle, input: Mat, d: nat): Outcome<Mat> {
    if h !in engine then Err(NotRegistered(h))
    else if d != engine[h].d then Err(ShapeMismatch(d, engine[h].d))
    else Ok(Mul(input, engine[h].m, d, engine[h].p))
  }

  /** One product per handle, in order; the first failure wins. */
  function MatmulMany(engine: Engine, handles: seq<WeightHandle>, input: Mat, d: nat): (r: Outcome<seq<Mat>>)
    ensures !r.Panic?
    ensures r.Ok? <==> forall h :: h in handles ==> h in engine && engine[h].d == d
    ensures r.Ok? ==> |r.value| == |handles|
    ensures r.Ok? ==> forall i :: 0 <= i < |handles| ==>
              r.value[i] == Mul(input, engine[handles[i]].m, d, engine[handles[i]].p)
  {
    if handles == [] then Ok([])
    else
      var first := Matmul(engine, handles[0], input, d);
      if first.Err? then Err(first.error)
      else
        var rest := MatmulMany(engine, handles[1..], input, d);
        if rest.Err? then rest else Ok([first.value] + rest.value)
  }

  /** Three answers as one: all of them in order, or the first failure. */
  function Three(a: Outcome<Mat>, b: Outcome<Mat>, c: Outcome<Mat>): Outcome<seq<Mat>> {
    if a.Err? then Err(a.error)
    else if b.Err? then Err(b.error)
    else if c.Err? then Err(c.error)
    else if a.Panic? || b.Panic? || c.Panic? then Panic
    else Ok([a.value, b.value, c.value])
  }

  lemma {:induction false} ManyIsThree(engine: Engine, a: WeightHandle, b: WeightHandle, c: WeightHandle, input: Mat,
                                       d: nat)
    ensures MatmulMany(engine, [a, b, c], input, d)
         == Three(Matmul(engine, a, input, d), Matmul(engine, b, input, d), Matmul(engine, c, input, d))
  {
    hide Matmul;
    var all := [a, b, c];
    assert all[1..] == [b, c] && [b, c][1..] == [c] && [c][1..] == [];
    MatmulHead(engine, all, input, d);
    MatmulHead(engine, [b, c], input, d);
    MatmulHead(engine, [c], input, d);
    assert MatmulMany(engine, [], input, d) == Ok([]);
    var x, y, z := Matmul(engine, a, input, d), Matmul(engine, b, input, d), Matmul(engine, c, input, d);
    if !x.Err? && !y.Err? && !z.Err? {
      assert [x.value] + ([y.value] + ([z.value] + [])) == [x.value, y.value, z.value];
    }
  }

  lemma {:induction false} MatmulHead(engine: Engine, handles: seq<WeightHandle>, input: Mat, d: nat)
    requires handles != []
    ensures !Matmul(engine, handles[0], input, d).Panic?
    ensures var first, rest := Matmul(engine, handles[0], input, d), MatmulMany(engine, handles[1..], input, d);
            MatmulMany(engine, handles, input, d)
            == if first.Err? then Err(first.error) else if rest.Err? then rest else Ok([first.value] + rest.value)
  {
  }

  // ─── configuration and brackets ───

  datatype Shield = Shield(k: nat, energy: real)

  /** `None` disables the overlay for short inputs. */
  datatype Overlay = None | Some(shield: Shield, maxRows: nat)

  datatype Config = Config(perForward: bool, kind: MaskKind, base: Shield, small: Overlay, probes: nat)

  function PickShield(cfg: Config, n: nat): Shield {
    match cfg.small
    case Some(shield, maxRows) => if n <= maxRows then shield else cfg.base
    case None => cfg.base
  }

  /** The open bracket: none, `n` data rows, or `batch` sequences of `n` rows each. */
  datatype View = Closed | Rows(n: nat) | Batch(batch: nat, n: nat)

  datatype State = State(view: View, shield: Shield)

  datatype Op =
    | BeginForward(n: nat)
    | BeginPrefill(batch: nat, n: nat)
    | BeginDecode(batch: nat, shared: bool)
    | End
    | Linear(h: WeightHandle, hidden: Mat, d: nat)
    | Qkv(layer: nat, hidden: Mat, d: nat)
    | LinearMany(handles: seq<WeightHandle>, hidden: Mat, d: nat)

  function QkvHandles(layer: nat): seq<WeightHandle> {
    [WeightHandle(layer, Q), WeightHandle(layer, K), WeightHandle(layer, V)]
  }

  function Height(kind: MaskKind, s: nat): nat {
    StackedRows(ResolveMaskKindForShape(kind, s), s)
  }

  /** A DCT-IV mask of side 0 cannot be built. */
  predicate Buildable(kind: MaskKind, s: nat) {
    ResolveMaskKindForShape(kind, s) == Dct4Kind ==> s > 0
  }

  /** Opening a bracket of one mask over `n` data rows. */
  function OpenRows(cfg: Config, st: State, n: nat, shield: Shield): (State, Outcome<seq<Mat>>) {
    if Buildable(cfg.kind, n + shield.k) then (State(Rows(n), shield), Ok([])) else (st, Panic)
  }

  function OpenBatch(cfg: Config, st: State, batch: nat, n: nat, shield: Shield): (State, Outcome<seq<Mat>>) {
    (State(Batch(batch, n), shield), Ok([]))
  }

  function SharedShield(cfg: Config, batch: nat): Shield {
    Shield(ShieldKForBatch(batch, if cfg.base.k < 1 then 1 else cfg.base.k), cfg.base.energy)
  }

  /** Whether a non-batched offload of `rows` rows matches the bracket. */
  predicate Fits(cfg: Config, st: State, rows: nat) {
    if cfg.perForward then st.view == Rows(rows) else Buildable(cfg.kind, rows + st.shield.k)
  }

  function Lift(r: Outcome<Mat>): Outcome<seq<Mat>> {
    match r
    case Ok(m) => Ok([m])
    case Err(e) => Err(e)
    case Panic => Panic
  }

  /** No registered weight among these is without columns. */
  predicate HaveColumns(engine: Engine, handles: seq<WeightHandle>) {
    forall h :: h in handles && h in engine ==> engine[h].p > 0
  }

  /** The answers of a batch are cut into blocks, and a block of no columns cannot be cut. */
  function CutIntoBlocks(engine: Engine, handles: seq<WeightHandle>, reply: Outcome<seq<Mat>>): Outcome<seq<Mat>> {
    if reply.Ok? && !HaveColumns(engine, handles) then Panic else reply
  }

  /** A batch checks the row count of a single projection exactly. */
  function LinearResult(cfg: Config, engine: Engine, st: State, h: WeightHandle, hidden: Mat,
                        d: nat): Outcome<seq<Mat>> {
    match st.view
    case Batch(batch, n) =>
      if |hidden| != batch * n || d == 0 then Panic else CutIntoBlocks(engine, [h], Lift(Matmul(engine, h, hidden, d)))
    case _ =>
      if Fits(cfg, st, |hidden|) then Lift(Matmul(engine, h, hidden, d)) else Panic
  }

  /** A batch reads only its first `batch·n` rows for several projections at once;
      surplus rows are dropped without an error. */
  function ManyResult(cfg: Config, engine: Engine, st: State, handles: seq<WeightHandle>, hidden: Mat,
                      d: nat): Outcome<seq<Mat>> {
    match st.view
    case Batch(batch, n) =>
      if |hidden| < batch * n || d == 0 then Panic
      else CutIntoBlocks(engine, handles, MatmulMany(engine, handles, hidden[..batch * n], d))
    case _ =>
      if Fits(cfg, st, |hidden|) then MatmulMany(engine, handles, hidden, d) else Panic
  }

  /** The rows several projections read: those of the batch, or all of them. */
  function UsedRows(st: State, hidden: Mat): Mat {
    match st.view
    case Batch(batch, n) => if batch * n <= |hidden| then hidden[..batch * n] else hidden
    case _ => hidden
  }

  /** In any state: unless it panics, a query-key-value offload answers the three projections of the layer. */
  lemma {:induction false} QkvAnswers(cfg: Config, engine: Engine, st: State, layer: nat, hidden: Mat, d: nat)
    ensures var out, x := ManyResult(cfg, engine, st, QkvHandles(layer), hidden, d), UsedRows(st, hidden);
            !out.Panic? ==>
              out == Three(Matmul(engine, WeightHandle(layer, Q), x, d), Matmul(engine, WeightHandle(layer, K), x, d),
                           Matmul(engine, WeightHandle(layer, V), x, d))
  {
    hide Matmul, MatmulMany;
    ManyIsThree(engine, WeightHandle(layer, Q), WeightHandle(layer, K), WeightHandle(layer, V), UsedRows(st, hidden),
                d);
  }

  function Step(cfg: Config, engine: Engine, st: State, op: Op): (State, Outcome<seq<Mat>>) {
    match op
    case BeginForward(n) =>
      if !cfg.perForward then (st, Ok([])) else OpenRows(cfg, st, n, PickShield(cfg, n))
    case BeginPrefill(batch, n) =>
      if !cfg.perForward then (st, Ok([]))
      else if batch == 0 then (st, Err(EmptyBatch))
      else if n == 0 then (st, Err(EmptySequence))
      else OpenBatch(cfg, st, batch, n, PickShield(cfg, n))
    case BeginDecode(batch, shared) =>
      if !cfg.perForward then (st, Ok([]))
      else if batch == 0 then (st, Err(EmptyBatch))
      else if shared then OpenRows(cfg, st, batch, SharedShield(cfg, batch))
      else OpenBatch(cfg, st, batch, 1, PickShield(cfg, 1))
    case End => (State(Closed, st.shield), Ok([]))
    case Linear(h, hidden, d) => (st, LinearResult(cfg, engine, st, h, hidden, d))
    case Qkv(layer, hidden, d) => (st, ManyResult(cfg, engine, st, QkvHandles(layer), hidden, d))
    case LinearMany(handles, hidden, d) =>
      (st, if handles == [] then Ok([]) else ManyResult(cfg, engine, st, handles, hidden, d))
  }

  /** The outputs of a run; a panic ends it. */
  function Trace(cfg: Config, engine: Engine, st: State, ops: seq<Op>): (outs: seq<Outcome<seq<Mat>>>)
    ensures |outs| <= |ops|
    decreases |ops|
  {
    if ops == [] then []
    else
      var (next, out) := Step(cfg, engine, st, ops[0]);
      if out.Panic? then [Panic] else [out] + Trace(cfg, engine, next, ops[1..])
  }

  /** The rows one mask of the bracket covers: all of them, or those of one sequence. */
  function RowsUnderMask(begin: Op): nat {
    match begin
    case BeginForward(n) => n
    case BeginPrefill(_, n) => n
    case BeginDecode(batch, shared) => if shared then batch else 1
    case _ => 0
  }

  /** Opened brackets: the overlay shields exactly those whose masks cover no more rows than it allows;
      a shared decode instead gets as many shield rows as bring it to a power of two, and no padding. */
  lemma {:induction false} BracketShield(cfg: Config, engine: Engine, st: State, begin: Op)
    requires cfg.perForward && OpensBracket(begin)
    ensures var shield := Step(cfg, engine, st, begin).0.shield;
            if begin.BeginDecode? && begin.shared then
              && shield.energy == cfg.base.energy && shield.k >= cfg.base.k && shield.k >= 1
              && Fwht.IsPowerOfTwo(begin.batch + shield.k)
              && (cfg.kind == Auto ==> Height(cfg.kind, begin.batch + shield.k) == begin.batch + shield.k)
            else if cfg.small.None? || RowsUnderMask(begin) > cfg.small.maxRows then shield == cfg.base
            else shield == cfg.small.shield
  {
    hide NextPowerOfTwo, Fwht.IsPowerOfTwo, Height;
    if begin.BeginDecode? && begin.shared {
      SharedHeight(cfg, begin.batch);
      hide SharedShield;
    }
  }

  lemma {:induction false} SharedHeight(cfg: Config, batch: nat)
    requires batch > 0
    ensures var shield := SharedShield(cfg, batch);
            && shield.energy == cfg.base.energy && shield.k >= cfg.base.k && shield.k >= 1
            && Fwht.IsPowerOfTwo(batch + shield.k)
            && (cfg.kind == Auto ==> Height(cfg.kind, batch + shield.k) == batch + shield.k)
  {
    SharedDecodeAligned(batch, if cfg.base.k < 1 then 1 else cfg.base.k);
    hide ShieldKForBatch, Fwht.IsPowerOfTwo;
  }

  /** No fewer shield rows would do for a shared decode. */
  lemma {:induction false} DecodeShieldLeast(cfg: Config, engine: Engine, st: State, batch: nat, k: nat)
    requires cfg.perForward && batch > 0
    requires k >= cfg.base.k && k >= 1 && Fwht.IsPowerOfTwo(batch + k)
    ensures Step(cfg, engine, st, BeginDecode(batch, true)).0.shield.k <= k
  {
    ShieldLeast(batch, if cfg.base.k < 1 then 1 else cfg.base.k, k);
    hide ShieldKForBatch, Fwht.IsPowerOfTwo;
  }

  /** A forward pass fails to open in one case only: no rows at all, neither data nor shield, and a
      cosine mask, named or chosen automatically. */
  lemma {:induction false} ForwardPanicsIff(cfg: Config, engine: Engine, st: State, n: nat)
    requires cfg.perForward
    ensures Step(cfg, engine, st, BeginForward(n)).1 == Panic
       <==> n + PickShield(cfg, n).k == 0 && (cfg.kind == Dct4Kind || cfg.kind == Auto)
  {
    AutoIff(0);
    assert NextPowerOfTwo(0) == 1;
  }

  // ─── brackets return plain products ───

  /** The unmasked executor: brackets do nothing, offloads multiply. */
  function Plain(engine: Engine, op: Op): Outcome<seq<Mat>> {
    match op
    case Linear(h, hidden, d) => Lift(Matmul(engine, h, hidden, d))
    case Qkv(layer, hidden, d) => MatmulMany(engine, QkvHandles(layer), hidden, d)
    case LinearMany(handles, hidden, d) => MatmulMany(engine, handles, hidden, d)
    case _ => Ok([])
  }

  function PlainRun(engine: Engine, ops: seq<Op>): seq<Outcome<seq<Mat>>> {
    seq(|ops|, i requires 0 <= i < |ops| => Plain(engine, ops[i]))
  }

  /** Query, key and value projections are the three single projections of the layer, in this order. */
  lemma {:induction false} QkvIsThree(engine: Engine, layer: nat, hidden: Mat, d: nat)
    ensures Plain(engine, Qkv(layer, hidden, d))
         == Three(Matmul(engine, WeightHandle(layer, Q), hidden, d), Matmul(engine, WeightHandle(layer, K), hidden, d),
                  Matmul(engine, WeightHandle(layer, V), hidden, d))
    ensures forall x, y, z :: Plain(engine, Qkv(layer, hidden, d)) == Ok([x, y, z])
              <==> && Plain(engine, Linear(WeightHandle(layer, Q), hidden, d)) == Ok([x])
                   && Plain(engine, Linear(WeightHandle(layer, K), hidden, d)) == Ok([y])
                   && Plain(engine, Linear(WeightHandle(layer, V), hidden, d)) == Ok([z])
  {
    ManyIsThree(engine, WeightHandle(layer, Q), WeightHandle(layer, K), WeightHandle(layer, V), hidden, d);
  }

  /** A single projection: the registered product, or the error that names what is wrong. */
  lemma {:induction false} LinearIs(engine: Engine, h: WeightHandle, hidden: Mat, d: nat)
    ensures h !in engine ==> Plain(engine, Linear(h, hidden, d)) == Err(NotRegistered(h))
    ensures h in engine && engine[h].d != d ==>
              Plain(engine, Linear(h, hidden, d)) == Err(ShapeMismatch(d, engine[h].d))
    ensures h in engine && engine[h].d == d ==>
              Plain(engine, Linear(h, hidden, d)) == Ok([Mul(hidden, engine[h].m, d, engine[h].p)])
  {
  }

  lemma {:induction false} FirstFails(engine: Engine, handles: seq<WeightHandle>, hidden: Mat, d: nat, i: nat)
    requires i < |handles| && Matmul(engine, handles[i], hidden, d).Err?
    requires forall j: nat :: j < i ==> Matmul(engine, handles[j], hidden, d).Ok?
    ensures MatmulMany(engine, handles, hidden, d) == Err(Matmul(engine, handles[i], hidden, d).error)
    decreases i
  {
    hide *;
    MatmulHead(engine, handles, hidden, d);
    if i > 0 {
      var rest := handles[1..];
      assert rest[i - 1] == handles[i] && Matmul(engine, handles[0], hidden, d).Ok?;
      assert forall j: nat :: j < i - 1 ==> rest[j] == handles[j + 1];
      FirstFails(engine, rest, hidden, d, i - 1);
    }
  }

  /** Any list of projections answers one product per handle in the order of the list, and fails
      with the error of the first handle that fails alone. */
  lemma {:induction false} ManyInOrder(engine: Engine, handles: seq<WeightHandle>, hidden: Mat, d: nat, i: nat)
    requires i < |handles|
    requires forall j: nat :: j < i ==> Plain(engine, Linear(handles[j], hidden, d)).Ok?
    ensures var all, one := Plain(engine, LinearMany(handles, hidden, d)), Plain(engine, Linear(handles[i], hidden, d));
            && (one.Err? ==> all == Err(one.error))
            && (all.Ok? ==> |all.value| == |handles| && one == Ok([all.value[i]]))
  {
    hide MatmulMany;
    forall j: nat | j < i
      ensures Matmul(engine, handles[j], hidden, d).Ok?
    {
      assert Plain(engine, Linear(handles[j], hidden, d)).Ok?;
    }
    if Matmul(engine, handles[i], hidden, d).Err? {
      FirstFails(engine, handles, hidden, d, i);
    }
    assert handles[i] in handles;
  }

  predicate IsOffload(op: Op) {
    op.Linear? || op.Qkv? || op.LinearMany?
  }

  /** Offloads that do not fit what is open: in a bracket of one mask any other number of rows is a
      failed assertion, outside a bracket every offload is; between sequences a single projection needs
      all their rows and several need at least those. Nothing changes the session. */
  lemma {:induction false} MismatchPanics(cfg: Config, engine: Engine, st: State, op: Op)
    requires IsOffload(op) && cfg.perForward && (op.LinearMany? ==> op.handles != [])
    ensures Step(cfg, engine, st, op).0 == st
    ensures st.view == Closed ==> Step(cfg, engine, st, op).1 == Panic
    ensures st.view.Rows? && |op.hidden| != st.view.n ==> Step(cfg, engine, st, op).1 == Panic
    ensures st.view.Batch? && op.Linear? && |op.hidden| != st.view.batch * st.view.n ==>
              Step(cfg, engine, st, op).1 == Panic
    ensures st.view.Batch? && |op.hidden| < st.view.batch * st.view.n ==> Step(cfg, engine, st, op).1 == Panic
  {
  }

  /** What opening a bracket makes of its sizes: no sequences or empty ones are errors that change
      nothing, anything else leaves that many rows, or that many sequences of so many rows, open. */
  lemma {:induction false} BracketOpens(cfg: Config, engine: Engine, st: State, begin: Op)
    requires cfg.perForward && RowsUnderMask(begin) > 0
    ensures forall n :: Step(cfg, engine, st, BeginPrefill(0, n)) == (st, Err(EmptyBatch))
    ensures forall batch | batch > 0 :: Step(cfg, engine, st, BeginPrefill(batch, 0)) == (st, Err(EmptySequence))
    ensures Step(cfg, engine, st, BeginDecode(0, true)) == Step(cfg, engine, st, BeginDecode(0, false))
         == (st, Err(EmptyBatch))
    ensures var view := Step(cfg, engine, st, begin).0.view;
            match begin
            case BeginForward(n) => view == Rows(n)
            case BeginPrefill(batch, n) => batch > 0 ==> view == Batch(batch, n)
            case BeginDecode(batch, shared) => batch > 0 ==> view == if shared then Rows(batch) else Batch(batch, 1)
            case _ => true
  {
  }

  /** The rows every offload inside the bracket carries. */
  function BracketRows(begin: Op): nat {
    match begin
    case BeginForward(n) => n
    case BeginPrefill(batch, n) => batch * n
    case BeginDecode(batch, _) => batch
    case _ => 0
  }

  predicate OpensBracket(begin: Op) {
    match begin
    case BeginForward(n) => n > 0
    case BeginPrefill(batch, n) => batch > 0 && n > 0
    case BeginDecode(batch, _) => batch > 0
    case _ => false
  }

  ghost predicate BracketOf(begin: Op, ops: seq<Op>) {
    && OpensBracket(begin)
    && forall op :: op in ops ==> IsOffload(op) && |op.hidden| == BracketRows(begin) && op.d > 0
  }

  function HandlesOf(op: Op): seq<WeightHandle> {
    match op
    case Linear(h, _, _) => [h]
    case Qkv(layer, _, _) => QkvHandles(layer)
    case LinearMany(handles, _, _) => handles
    case _ => []
  }

  /** Whether the bracket keeps its sequences apart, each under its own mask. */
  predicate PerSequence(begin: Op) {
    begin.BeginPrefill? || (begin.BeginDecode? && !begin.shared)
  }

  /** A bracket of separate sequences multiplies by weights that have columns. */
  ghost predicate BracketFits(cfg: Config, engine: Engine, begin: Op, ops: seq<Op>) {
    cfg.perForward && PerSequence(begin) ==> forall op :: op in ops ==> HaveColumns(engine, HandlesOf(op))
  }

  /** The state an offload of `rows` rows is answered in. */
  predicate Open(cfg: Config, st: State, rows: nat) {
    && rows > 0
    && if cfg.perForward then st.view == Rows(rows) || (st.view.Batch? && st.view.batch * st.view.n == rows)
       else !st.view.Batch?
  }

  lemma {:induction false} OpenAnswers(cfg: Config, engine: Engine, st: State, op: Op, rows: nat)
    requires Open(cfg, st, rows) && IsOffload(op) && |op.hidden| == rows && op.d > 0
    requires st.view.Batch? ==> HaveColumns(engine, HandlesOf(op))
    ensures Step(cfg, engine, st, op) == (st, Plain(engine, op))
    ensures !Plain(engine, op).Panic?
  {
    assert op.hidden[..rows] == op.hidden;
  }

  lemma {:induction false} BeginOpens(cfg: Config, engine: Engine, st: State, begin: Op)
    requires OpensBracket(begin) && (!cfg.perForward ==> st.view == Closed)
    ensures Step(cfg, engine, st, begin).1 == Ok([])
    ensures Open(cfg, Step(cfg, engine, st, begin).0, BracketRows(begin))
    ensures Step(cfg, engine, st, begin).0.view.Batch? ==> cfg.perForward && PerSequence(begin)
  {
    if begin.BeginPrefill? {
      assert begin.batch * begin.n >= begin.n;
    }
  }

  lemma {:induction false} OffloadsPlain(cfg: Config, engine: Engine, st: State, ops: seq<Op>, rest: seq<Op>, rows: nat)
    requires Open(cfg, st, rows)
    requires forall op :: op in ops ==> IsOffload(op) && |op.hidden| == rows && op.d > 0
    requires st.view.Batch? ==> forall op :: op in ops ==> HaveColumns(engine, HandlesOf(op))
    ensures Trace(cfg, engine, st, ops + rest) == PlainRun(engine, ops) + Trace(cfg, engine, st, rest)
  {
    if ops == [] {
      assert ops + rest == rest;
    } else {
      var op, tail := ops[0], ops[1..];
      assert op in ops && forall t :: t in tail ==> t in ops;
      hide *;
      OpenAnswers(cfg, engine, st, op, rows);
      OffloadsPlain(cfg, engine, st, tail, rest, rows);
      assert ops == [op] + tail;
      Joined(op, tail, rest);
      TraceStep(cfg, engine, st, op, tail + rest);
      PlainRunSplit(engine, [op], tail);
      PlainRunOne(engine, op);
      Joined(Plain(engine, op), PlainRun(engine, tail), Trace(cfg, engine, st, rest));
    }
  }

  /** A bracket, whatever came before it and whatever follows: every offload in it
      returns what the plain executor returns, and no assertion fails. */
  lemma {:induction false} BracketPlain(cfg: Config, engine: Engine, st: State, begin: Op, ops: seq<Op>, rest: seq<Op>)
    returns (after: State)
    requires BracketOf(begin, ops) && BracketFits(cfg, engine, begin, ops) && (!cfg.perForward ==> st.view == Closed)
    ensures after.view == Closed
    ensures Trace(cfg, engine, st, [begin] + ops + [End] + rest)
         == PlainRun(engine, [begin] + ops + [End]) + Trace(cfg, engine, after, rest)
  {
    var inside := Step(cfg, engine, st, begin).0;
    after := Step(cfg, engine, inside, End).0;
    BeginOpens(cfg, engine, st, begin);
    assert Step(cfg, engine, inside, End).1 == Ok([]) && Plain(engine, begin) == Plain(engine, End) == Ok([]);
    hide *;
    TraceStep(cfg, engine, inside, End, rest);
    OffloadsPlain(cfg, engine, inside, ops, [End] + rest, BracketRows(begin));
    TraceStep(cfg, engine, st, begin, ops + ([End] + rest));
    Regrouped([begin], ops, [End], rest);
    BracketOutputs(engine, begin, ops);
    Regrouped([Ok([])], PlainRun(engine, ops), [Ok([])], Trace(cfg, engine, after, rest));
  }

  lemma {:induction false} Joined<T>(a: T, b: seq<T>, c: seq<T>)
    ensures [a] + (b + c) == [a] + b + c
  {
  }

  lemma {:induction false} Regrouped<T>(a: seq<T>, b: seq<T>, c: seq<T>, d: seq<T>)
    ensures a + (b + (c + d)) == a + b + c + d
  {
  }

  lemma {:induction false} BracketOutputs(engine: Engine, begin: Op, ops: seq<Op>)
    requires Plain(engine, begin) == Ok([])
    ensures PlainRun(engine, [begin] + ops + [End]) == [Ok([])] + PlainRun(engine, ops) + [Ok([])]
  {
    hide PlainRun;
    PlainRunSplit(engine, [begin], ops);
    PlainRunSplit(engine, [begin] + ops, [End]);
    PlainRunOne(engine, begin);
    PlainRunOne(engine, End);
  }

  lemma {:induction false} TraceStep(cfg: Config, engine: Engine, st: State, op: Op, rest: seq<Op>)
    requires !Step(cfg, engine, st, op).1.Panic?
    ensures Trace(cfg, engine, st, [op] + rest)
         == [Step(cfg, engine, st, op).1] + Trace(cfg, engine, Step(cfg, engine, st, op).0, rest)
  {
    hide Step;
    assert ([op] + rest)[1..] == rest;
  }

  lemma {:induction false} PlainRunOne(engine: Engine, op: Op)
    ensures PlainRun(engine, [op]) == [Plain(engine, op)]
  {
  }

  lemma {:induction false} PlainRunSplit(engine: Engine, a: seq<Op>, b: seq<Op>)
    ensures PlainRun(engine, a + b) == PlainRun(engine, a) + PlainRun(engine, b)
  {
    hide Plain;
  }

  // ─── whole sessions ───

  datatype Bracket = Bracket(begin: Op, ops: seq<Op>)

  function Flat(brackets: seq<Bracket>): seq<Op> {
    if brackets == [] then []
    else [brackets[0].begin] + brackets[0].ops + [End] + Flat(brackets[1..])
  }

  /** Any number of well-formed brackets, one after another, from any closed state. */
  lemma {:induction false} RunsPlain(cfg: Config, engine: Engine, st: State, brackets: seq<Bracket>)
    requires st.view == Closed
    requires forall b :: b in brackets ==> BracketOf(b.begin, b.ops) && BracketFits(cfg, engine, b.begin, b.ops)
    ensures Trace(cfg, engine, st, Flat(brackets)) == PlainRun(engine, Flat(brackets))
    decreases |brackets|
  {
    if brackets != [] {
      hide *;
      var b, rest := brackets[0], brackets[1..];
      var after := BracketPlain(cfg, engine, st, b.begin, b.ops, Flat(rest));
      RunsPlain(cfg, engine, after, rest);
      FlatSplit(brackets);
      PlainRunSplit(engine, [b.begin] + b.ops + [End], Flat(rest));
    }
  }

  lemma {:induction false} FlatSplit(brackets: seq<Bracket>)
    requires brackets != []
    ensures Flat(brackets) == [brackets[0].begin] + brackets[0].ops + [End] + Flat(brackets[1..])
  {
  }

  lemma {:induction false} ProductRows(engine: Engine, handles: seq<WeightHandle>, x: Mat, d: nat)
    requires handles != [] && MatmulMany(engine, handles, x, d).Ok?
    ensures |MatmulMany(engine, handles, x, d).value[0]| == |x|
  {
    hide MatmulMany;
    assert MatmulMany(engine, handles, x, d).value[0] == Mul(x, engine[handles[0]].m, d, engine[handles[0]].p);
  }

  /** Several projections in a batch agree with the plain executor exactly when no row is surplus or
      missing and every weight has columns; a surplus row is lost in silence. */
  lemma {:induction false} BatchRowsIff(cfg: Config, engine: Engine, st: State, handles: seq<WeightHandle>, hidden: Mat,
                                        d: nat)
    requires st.view.Batch? && d > 0 && handles != []
    requires forall h :: h in handles ==> h in engine && engine[h].d == d
    ensures ManyResult(cfg, engine, st, handles, hidden, d) == MatmulMany(engine, handles, hidden, d)
       <==> |hidden| == st.view.batch * st.view.n && HaveColumns(engine, handles)
  {
    var rows := st.view.batch * st.view.n;
    var h := handles[0];
    if |hidden| == rows {
      assert hidden[..rows] == hidden;
    } else if |hidden| > rows {
      assert h in handles;
      ProductRows(engine, handles, hidden[..rows], d);
      ProductRows(engine, handles, hidden, d);
    }
  }
}

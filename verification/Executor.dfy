/** The masked executor: its session and reusable buffers, proved to follow the mask-free
    state machine of `Protocol` for every random draw and every stale buffer. */
module Executor {
  import opened LinAlg
  import opened Blocks
  import opened Masks
  import opened Protocol
  import opened Batches
  import opened Offload
  import Haar
  import Stacking

  datatype Session =
    | NoSession
    | Single(mask: MaskFamily, dataN: nat)
    | PerSequence(masks: seq<MaskFamily>, dataN: nat, batch: nat)

  /** Every random value one call may consume. */
  datatype Randomness = Randomness(
    mask: nat -> Draws,
    shield: nat -> (int, int) -> real,
    probe: (nat, nat, nat) -> int)

  ghost predicate GoodMask(cfg: Config, k: nat, mask: MaskFamily, n: nat) {
    && ValidFamily(mask)
    && KindOf(mask) == ResolveMaskKindForShape(cfg.kind, n + k)
    && Side(mask) == Height(cfg.kind, n + k)
  }

  ghost predicate ValidSession(cfg: Config, k: nat, session: Session) {
    match session
    case NoSession => true
    case Single(mask, n) => cfg.perForward && GoodMask(cfg, k, mask, n)
    case PerSequence(masks, n, batch) =>
      && cfg.perForward && batch > 0 && n > 0 && |masks| == batch
      && forall b {:trigger masks[b]} | 0 <= b < batch :: GoodMask(cfg, k, masks[b], n)
  }

  function SessionView(session: Session): View {
    match session
    case NoSession => Closed
    case Single(_, n) => Rows(n)
    case PerSequence(_, n, batch) => Batch(batch, n)
  }

  function SessionMasks(session: Session): seq<MaskFamily> {
    match session
    case NoSession => []
    case Single(mask, _) => [mask]
    case PerSequence(masks, _, _) => masks
  }

  /** The rows a batch covers. */
  function Covered(session: Session): nat
    requires session.PerSequence?
  {
    session.batch * session.dataN
  }

  // ─── what leaves the trusted side ───

  /** How an operand was made: one mask over all rows, or one per sequence. */
  datatype Veil =
    | One(mask: MaskFamily, hidden: Mat, z: (int, int) -> real)
    | Many(masks: seq<MaskFamily>, hidden: Mat, dataN: nat, side: nat, zs: nat -> (int, int) -> real)

  datatype Sent = Sent(operand: Mat, d: nat, shield: Shield, veil: Veil)

  /** Where an operand comes from: its data rows, the draw behind each of its masks in order, and the
      draws of its shield rows. */
  datatype Origin = Origin(hidden: Mat, d: nat, shield: Shield, draws: seq<Draws>, zs: nat -> (int, int) -> real)

  /** Every operand the engine was given and where it came from, oldest first. */
  datatype Log = Log(seen: seq<Sent>, origins: seq<Origin>)

  function VeilMasks(veil: Veil): seq<MaskFamily> {
    match veil
    case One(mask, _, _) => [mask]
    case Many(masks, _, _, _, _) => masks
  }

  /** The operand is a mask times data rows, shield rows and padding. */
  ghost predicate Veiled(sent: Sent, plat: Platform)
    requires Haar.IsSqrt(plat.sqrt)
  {
    match sent.veil
    case One(mask, hidden, z) => IsMasked(sent.operand, mask, hidden, sent.shield, sent.d, plat, z)
    case Many(masks, hidden, dataN, side, zs) =>
      && dataN + sent.shield.k <= side
      && MaskedBatch(sent.operand, masks, hidden, dataN, sent.shield, side, sent.d, plat, zs)
  }

  /** Mask by mask, each is made from its own draw. */
  ghost predicate AllSampled(masks: seq<MaskFamily>, draws: seq<Draws>, plat: Platform) {
    && |masks| == |draws|
    && forall b {:trigger masks[b]} | 0 <= b < |masks| :: Sampled(masks[b], Side(masks[b]), draws[b], plat)
  }

  /** The data rows and shield draws of an operand. */
  ghost predicate Carries(veil: Veil, o: Origin) {
    match veil
    case One(_, hidden, z) => hidden == o.hidden && z == o.zs(0)
    case Many(_, hidden, _, _, zs) => hidden == o.hidden && zs == o.zs
  }

  /** The operand hides the rows of its origin under masks made from the draws of its origin. */
  ghost predicate MadeFrom(sent: Sent, o: Origin, plat: Platform)
    requires Haar.IsSqrt(plat.sqrt)
  {
    && sent.d == o.d && sent.shield == o.shield
    && Veiled(sent, plat) && Carries(sent.veil, o) && AllSampled(VeilMasks(sent.veil), o.draws, plat)
  }

  /** Nothing has left but masked operands, each from its origin. */
  ghost predicate GoodLog(log: Log, plat: Platform)
    requires Haar.IsSqrt(plat.sqrt)
  {
    && |log.seen| == |log.origins|
    && forall i {:trigger log.seen[i]} | 0 <= i < |log.seen| :: MadeFrom(log.seen[i], log.origins[i], plat)
  }

  lemma {:induction false} SentGood(log: Log, sent: Sent, o: Origin, plat: Platform)
    requires Haar.IsSqrt(plat.sqrt) && GoodLog(log, plat) && MadeFrom(sent, o, plat)
    ensures GoodLog(Log(log.seen + [sent], log.origins + [o]), plat)
  {
    hide MadeFrom;
  }

  /** The log has grown by one operand for each of these origins. */
  ghost predicate Extends(before: Log, after: Log, more: seq<Origin>) {
    && before.seen <= after.seen && |after.seen| == |before.seen| + |more|
    && after.origins == before.origins + more
  }

  lemma {:induction false} ExtendsNone(log: Log)
    ensures Extends(log, log, [])
  {
  }

  lemma {:induction false} ExtendsOne(log: Log, sent: Sent, o: Origin)
    ensures Extends(log, Log(log.seen + [sent], log.origins + [o]), [o])
  {
  }

  lemma {:induction false} ExtendsTwice(before: Log, mid: Log, after: Log, first: seq<Origin>, second: seq<Origin>)
    requires Extends(before, mid, first) && Extends(mid, after, second)
    ensures Extends(before, after, first + second)
  {
    assert before.seen == mid.seen[..|before.seen|] == after.seen[..|before.seen|];
  }

  lemma {:induction false} GoodMaskFits(cfg: Config, k: nat, mask: MaskFamily, n: nat)
    requires GoodMask(cfg, k, mask, n)
    ensures ValidFamily(mask) && n + k <= Side(mask)
  {
  }

  lemma {:induction false} SessionHeight(cfg: Config, k: nat, session: Session)
    requires ValidSession(cfg, k, session)
    ensures session.Single? ==> Side(session.mask) == Height(cfg.kind, session.dataN + k)
  {
  }

  // ─── which operands a run hands over ───

  function DrawsOf(rnd: Randomness, count: nat): (draws: seq<Draws>)
    ensures |draws| == count
  {
    seq(count, (b: nat) => rnd.mask(b))
  }

  /** The draw behind a mask over all rows: the session's, or one of this call when there are no brackets. */
  function MaskDraws(cfg: Config, drawn: seq<Draws>, rnd: Randomness): seq<Draws> {
    if cfg.perForward then drawn else DrawsOf(rnd, 1)
  }

  /** What an offload of `hidden` hands over, when `drawn` are the draws of the open session; `exact` when
      surplus rows of a batch are not accepted. */
  function HandedOver(cfg: Config, st: State, drawn: seq<Draws>, hidden: Mat, d: nat, exact: bool,
                      rnd: Randomness): seq<Origin> {
    match st.view
    case Batch(batch, n) =>
      if |hidden| < batch * n || d == 0 || (exact && |hidden| != batch * n) then []
      else [Origin(hidden[..batch * n], d, st.shield, drawn, rnd.shield)]
    case _ =>
      if Fits(cfg, st, |hidden|) then [Origin(hidden, d, st.shield, MaskDraws(cfg, drawn, rnd), rnd.shield)] else []
  }

  /** What one operation hands over. */
  function SentBy(cfg: Config, st: State, drawn: seq<Draws>, op: Op, rnd: Randomness): seq<Origin> {
    match op
    case Linear(_, hidden, d) => HandedOver(cfg, st, drawn, hidden, d, true, rnd)
    case Qkv(_, hidden, d) => HandedOver(cfg, st, drawn, hidden, d, false, rnd)
    case LinearMany(handles, hidden, d) =>
      if handles == [] then [] else HandedOver(cfg, st, drawn, hidden, d, false, rnd)
    case _ => []
  }

  /** The draws behind the session's masks after one operation: a bracket that opens brings new ones. */
  function DrawnNext(cfg: Config, st: State, drawn: seq<Draws>, op: Op, rnd: Randomness): seq<Draws> {
    match op
    case BeginForward(_) => if cfg.perForward then DrawsOf(rnd, 1) else drawn
    case BeginPrefill(batch, n) => if cfg.perForward && batch > 0 && n > 0 then DrawsOf(rnd, batch) else drawn
    case BeginDecode(batch, shared) =>
      if cfg.perForward && batch > 0 then DrawsOf(rnd, if shared then 1 else batch) else drawn
    case End => []
    case _ => drawn
  }

  /** An offload that succeeds or fails with an error hands over one operand and any other operation none:
      the rows it reads, with the session's shield and its own shield draws. One that fails an assertion has
      handed nothing over, unless the answers for a weight without columns could not be cut. */
  lemma {:induction false} SentIs(cfg: Config, engine: Engine, st: State, drawn: seq<Draws>, op: Op, rnd: Randomness)
    ensures !IsOffload(op) || (op.LinearMany? && op.handles == []) ==> SentBy(cfg, st, drawn, op, rnd) == []
    ensures IsOffload(op) && (op.LinearMany? ==> op.handles != []) ==>
              var sent, out := SentBy(cfg, st, drawn, op, rnd), Step(cfg, engine, st, op).1;
              && (!out.Panic? ==> |sent| == 1)
              && (out.Panic? && sent != [] ==>
                  st.view.Batch? && exists h :: h in HandlesOf(op) && h in engine && engine[h].p == 0)
              && (sent != [] ==>
                  && |sent| == 1 && sent[0].hidden == UsedRows(st, op.hidden)
                  && sent[0].d == op.d && sent[0].shield == st.shield && sent[0].zs == rnd.shield)
  {
    hide MatmulMany, Matmul;
    NeverPanics(engine);
  }

  lemma {:induction false} NeverPanics(engine: Engine)
    ensures forall h, x, d :: !Matmul(engine, h, x, d).Panic?
    ensures forall hs, x, d :: !MatmulMany(engine, hs, x, d).Panic?
  {
  }

  /** Everything a run hands over from its `i`-th operation on. */
  function Origins(cfg: Config, engine: Engine, st: State, drawn: seq<Draws>, ops: seq<Op>, rnd: nat -> Randomness,
                   i: nat): seq<Origin>
    decreases |ops| - i
  {
    if i >= |ops| then []
    else
      var (next, out) := Step(cfg, engine, st, ops[i]);
      SentBy(cfg, st, drawn, ops[i], rnd(i))
      + if out.Panic? then []
          else Origins(cfg, engine, next, DrawnNext(cfg, st, drawn, ops[i], rnd(i)), ops, rnd, i + 1)
  }

  // ─── no mask outlives its bracket ───

  /** Whether this operation opens a bracket with masks of its own. */
  predicate OpensSession(cfg: Config, op: Op) {
    cfg.perForward &&
    match op
    case BeginForward(_) => true
    case BeginPrefill(batch, n) => batch > 0 && n > 0
    case BeginDecode(batch, _) => batch > 0
    case _ => false
  }

  /** The operation whose randomness made the masks of operation `t`: the one that opened the bracket, or
      `t` itself when there are no brackets; -1 when no bracket was opened. */
  function Source(cfg: Config, ops: seq<Op>, t: nat): (j: int)
    requires t <= |ops|
    ensures j <= t
  {
    if !cfg.perForward then t
    else if t == 0 then -1
    else if OpensSession(cfg, ops[t - 1]) then t - 1
    else Source(cfg, ops, t - 1)
  }

  /** With brackets the source is the last operation before `t` that opened one; without, `t` itself. */
  lemma {:induction false} SourceIsLast(cfg: Config, ops: seq<Op>, t: nat)
    requires t <= |ops|
    ensures !cfg.perForward ==> Source(cfg, ops, t) == t
    ensures cfg.perForward ==> Source(cfg, ops, t) < t
    ensures cfg.perForward && Source(cfg, ops, t) >= 0 ==>
              !IsOffload(ops[Source(cfg, ops, t)]) && ops[Source(cfg, ops, t)] != End
    ensures cfg.perForward ==> forall i: nat :: Source(cfg, ops, t) < i < t ==> !OpensBracket(ops[i])
  {
    if cfg.perForward && t > 0 && !OpensSession(cfg, ops[t - 1]) {
      SourceIsLast(cfg, ops, t - 1);
    }
  }

  /** One mask, or one for every sequence. */
  function MaskCount(begin: Op): nat {
    match begin
    case BeginPrefill(batch, _) => batch
    case BeginDecode(batch, shared) => if shared then 1 else batch
    case _ => 1
  }

  /** Handed over by operation `t`: its own rows, under shield rows it drew itself and masks drawn by its source. */
  ghost predicate FreshAt(o: Origin, cfg: Config, ops: seq<Op>, rnd: nat -> Randomness, t: nat) {
    && t < |ops| && IsOffload(ops[t]) && o.hidden <= ops[t].hidden && o.d == ops[t].d && o.zs == rnd(t).shield
    && Source(cfg, ops, t) >= 0
    && |o.draws| == (if cfg.perForward then MaskCount(ops[Source(cfg, ops, t)]) else 1)
    && forall b {:trigger o.draws[b]} | 0 <= b < |o.draws| :: o.draws[b] == rnd(Source(cfg, ops, t)).mask(b)
  }

  ghost predicate Fresh(o: Origin, cfg: Config, ops: seq<Op>, rnd: nat -> Randomness) {
    exists t: nat :: FreshAt(o, cfg, ops, rnd, t)
  }

  /** The open session, if any, was drawn by its source. */
  ghost predicate DrawnBySource(cfg: Config, st: State, drawn: seq<Draws>, ops: seq<Op>, rnd: nat -> Randomness, i: nat)
    requires i <= |ops|
  {
    if cfg.perForward then
      st.view.Closed? || (Source(cfg, ops, i) >= 0 && |drawn| == MaskCount(ops[Source(cfg, ops, i)])
                          && drawn == DrawsOf(rnd(Source(cfg, ops, i)), |drawn|))
    else st.view.Closed?
  }

  lemma {:induction false} SourceStep(cfg: Config, engine: Engine, st: State, drawn: seq<Draws>, ops: seq<Op>,
                                      rnd: nat -> Randomness, i: nat)
    requires i < |ops| && DrawnBySource(cfg, st, drawn, ops, rnd, i)
    ensures var (next, out) := Step(cfg, engine, st, ops[i]);
            out.Panic? || DrawnBySource(cfg, next, DrawnNext(cfg, st, drawn, ops[i], rnd(i)), ops, rnd, i + 1)
  {
    hide LinearResult, ManyResult;
  }

  lemma {:induction false} SentFresh(cfg: Config, st: State, drawn: seq<Draws>, ops: seq<Op>, rnd: nat -> Randomness,
                                     i: nat)
    requires i < |ops| && DrawnBySource(cfg, st, drawn, ops, rnd, i)
    ensures forall o :: o in SentBy(cfg, st, drawn, ops[i], rnd(i)) ==> FreshAt(o, cfg, ops, rnd, i)
  {
  }

  /** From a closed session, every operand of a run is under masks drawn by the operation that opened its
      bracket, sequence by sequence, or by the offload itself; its shield rows are always its own. */
  lemma {:induction false} OriginsFresh(cfg: Config, engine: Engine, st: State, drawn: seq<Draws>, ops: seq<Op>,
                                        rnd: nat -> Randomness, i: nat)
    requires i <= |ops| && DrawnBySource(cfg, st, drawn, ops, rnd, i)
    ensures forall o :: o in Origins(cfg, engine, st, drawn, ops, rnd, i) ==> Fresh(o, cfg, ops, rnd)
    decreases |ops| - i
  {
    if i < |ops| {
      var (next, out) := Step(cfg, engine, st, ops[i]);
      SentFresh(cfg, st, drawn, ops, rnd, i);
      SourceStep(cfg, engine, st, drawn, ops, rnd, i);
      var later := DrawnNext(cfg, st, drawn, ops[i], rnd(i));
      hide Step, SentBy, DrawnNext, FreshAt, DrawnBySource;
      if !out.Panic? {
        OriginsFresh(cfg, engine, next, later, ops, rnd, i + 1);
      }
    }
  }

  lemma {:induction false} OneMade(masked: Mat, mask: MaskFamily, hidden: Mat, shield: Shield, d: nat, plat: Platform,
                                   o: Origin)
    requires Haar.IsSqrt(plat.sqrt) && IsMasked(masked, mask, hidden, shield, d, plat, o.zs(0))
    requires AllSampled([mask], o.draws, plat) && o.hidden == hidden && o.d == d && o.shield == shield
    ensures MadeFrom(Sent(masked, d, shield, One(mask, hidden, o.zs(0))), o, plat)
  {
    hide AllSampled, IsMasked;
  }

  lemma {:induction false} ManyMade(rows: Mat, masks: seq<MaskFamily>, hidden: Mat, dataN: nat, s: nat, shield: Shield,
                                    d: nat, plat: Platform, o: Origin)
    requires Haar.IsSqrt(plat.sqrt) && MaskedBatch(rows, masks, hidden, dataN, shield, s, d, plat, o.zs)
             && dataN + shield.k <= s
    requires AllSampled(masks, o.draws, plat) && o.hidden == hidden && o.d == d && o.shield == shield
    ensures MadeFrom(Sent(rows, d, shield, Many(masks, hidden, dataN, s, o.zs)), o, plat)
  {
    hide AllSampled, MaskedBatch;
  }

  /** Every operand the engine has seen, under its masks: the rows of its origin, with the shield draws of its
      origin at the amplitude of the data, one sequence or one after another. */
  lemma {:induction false} SeenHolds(log: Log, plat: Platform, i: nat)
    requires Haar.IsSqrt(plat.sqrt) && GoodLog(log, plat) && i < |log.seen|
    ensures var sent, o := log.seen[i], log.origins[i];
            match sent.veil
            case One(mask, hidden, _) =>
              IsMat(hidden, |hidden|, o.d) ==>
                && ValidFamily(mask) && hidden == o.hidden
                && Stacking.Holds(FamilyUnapply(mask, sent.operand, o.d), o.hidden, |o.hidden|, o.shield.k, Side(mask),
                                  o.d, Amplitude(o.hidden, o.d, o.shield, plat), o.zs(0))
            case Many(masks, hidden, dataN, side, _) =>
              IsMat(hidden, Offset(|masks|, dataN), o.d) ==>
                forall b: nat {:trigger masks[b]} | b < |masks| ::
                  && ValidFamily(masks[b]) && hidden == o.hidden
                  && Stacking.Holds(FamilyUnapply(masks[b], Block(sent.operand, b, side), o.d),
                                    Block(o.hidden, b, dataN), dataN, o.shield.k, side, o.d,
                                    Amplitude(Block(o.hidden, b, dataN), o.d, o.shield, plat), o.zs(b))
  {
    var sent, o := log.seen[i], log.origins[i];
    assert MadeFrom(sent, o, plat);
    hide Stacking.Holds, FamilyUnapply, Side, Amplitude, Block, Offset, IsMasked, MaskedBatch, AllSampled, IsMat,
         ValidFamily;
    match sent.veil
    case One(mask, hidden, z) =>
      assert IsMasked(sent.operand, mask, hidden, o.shield, o.d, plat, o.zs(0));
      if IsMat(hidden, |hidden|, o.d) {
        MaskValid(sent.operand, mask, hidden, o.shield, o.d, plat, o.zs(0));
        OperandHolds(sent.operand, mask, hidden, o.shield, o.d, plat, o.zs(0));
      }
    case Many(masks, hidden, dataN, side, zs) =>
      if IsMat(hidden, Offset(|masks|, dataN), o.d) {
        forall b: nat | b < |masks|
          ensures ValidFamily(masks[b])
          ensures Stacking.Holds(FamilyUnapply(masks[b], Block(sent.operand, b, side), o.d), Block(o.hidden, b, dataN),
                                 dataN, o.shield.k, side, o.d,
                                 Amplitude(Block(o.hidden, b, dataN), o.d, o.shield, plat), o.zs(b))
        {
          BlockHolds(sent.operand, masks, hidden, dataN, o.shield, side, o.d, plat, zs, b);
        }
      }
  }

  /** Which masks: one for every draw of the origin and mask `b` from draw `b`, the dense factor of its
      Gaussian matrix or the kernel between diagonals with its signs. */
  lemma {:induction false} SeenSampled(log: Log, plat: Platform, i: nat, b: nat)
    requires Haar.IsSqrt(plat.sqrt) && GoodLog(log, plat) && i < |log.seen| && b < |log.origins[i].draws|
    ensures |VeilMasks(log.seen[i].veil)| == |log.origins[i].draws|
    ensures var mask, draws := VeilMasks(log.seen[i].veil)[b], log.origins[i].draws[b];
            match mask
            case Dense(n, a) => a == Haar.HaarFactor(Build(n, n, draws.gauss), n, plat.sqrt)
            case Structured(m) =>
              && Hd3.SignsOf(m.keys.d1, m.n, draws.w1) && Hd3.SignsOf(m.keys.d2, m.n, draws.w2)
              && Hd3.SignsOf(m.keys.d3, m.n, draws.w3)
            case Cosine(m) =>
              && Hd3.SignsOf(m.keys.d1, m.n, draws.w1) && Hd3.SignsOf(m.keys.d2, m.n, draws.w2)
              && Hd3.SignsOf(m.keys.d3, m.n, draws.w3) && m.planner == plat.plan(m.n)
  {
    var masks := VeilMasks(log.seen[i].veil);
    assert MadeFrom(log.seen[i], log.origins[i], plat);
    hide Haar.HaarFactor, Hd3.SignsOf, ValidFamily, Veiled, Carries, GoodLog;
    assert Sampled(masks[b], Side(masks[b]), log.origins[i].draws[b], plat);
  }

  /** The masks of an open session have the kind the configuration resolves to for their rows, and its height. */
  lemma {:induction false} SessionKinds(cfg: Config, k: nat, session: Session, b: nat)
    requires ValidSession(cfg, k, session) && b < |SessionMasks(session)|
    ensures !session.NoSession? && session.dataN + k <= Side(SessionMasks(session)[b])
    ensures var s := session.dataN + k;
            && KindOf(SessionMasks(session)[b]) == ResolveMaskKindForShape(cfg.kind, s)
            && Side(SessionMasks(session)[b]) == StackedRows(ResolveMaskKindForShape(cfg.kind, s), s)
  {
    hide ValidFamily;
    if session.PerSequence? {
      assert GoodMask(cfg, k, session.masks[b], session.dataN);
    }
  }

  lemma {:induction false} MaskValid(masked: Mat, mask: MaskFamily, hidden: Mat, shield: Shield, d: nat, plat: Platform,
                                  z: (int, int) -> real)
    requires Haar.IsSqrt(plat.sqrt) && IsMasked(masked, mask, hidden, shield, d, plat, z)
    ensures ValidFamily(mask)
  {
    hide ValidFamily;
  }

  /** A fresh mask of the right kind and height for `n` data rows under `k` shield rows. */
  method MaskFor(cfg: Config, n: nat, k: nat, draws: Draws, plat: Platform) returns (mask: MaskFamily)
    requires Sound(plat) && Buildable(cfg.kind, n + k)
    ensures GoodMask(cfg, k, mask, n) && Sampled(mask, Side(mask), draws, plat)
  {
    var resolved := ResolveMaskKindForShape(cfg.kind, n + k);
    mask := FreshMask(resolved, StackedRows(resolved, n + k), draws, plat);
  }

  method MasksFor(cfg: Config, batch: nat, n: nat, k: nat, draws: nat -> Draws, plat: Platform)
    returns (masks: seq<MaskFamily>)
    requires Sound(plat) && n > 0
    ensures |masks| == batch
    ensures forall b {:trigger masks[b]} | 0 <= b < batch ::
              GoodMask(cfg, k, masks[b], n) && Sampled(masks[b], Side(masks[b]), draws(b), plat)
  {
    masks := [];
    hide GoodMask, Sampled;
    for b := 0 to batch
      invariant |masks| == b
      invariant forall c {:trigger masks[c]} | 0 <= c < b ::
                  GoodMask(cfg, k, masks[c], n) && Sampled(masks[c], Side(masks[c]), draws(c), plat)
    {
      var mask := MaskFor(cfg, n, k, draws(b), plat);
      masks := masks + [mask];
    }
  }

  class TrustedExecutor {
    const cfg: Config
    const plat: Platform
    var engine: Engine
    var weights: Engine
    var shield: Shield
    var session: Session
    var stackedScratch: map<nat, Mat>
    var perSeqScratch: map<nat, Mat>
    /** The draws behind the session's masks, in order. */
    ghost var drawn: seq<Draws>
    ghost var log: Log

    ghost predicate Valid()
      reads `engine, `weights, `shield, `session, `drawn, `log
    {
      && Sound(plat)
      && ValidEngine(engine)
      && weights == (if cfg.probes > 0 then engine else map[])
      && ValidSession(cfg, shield.k, session)
      && AllSampled(SessionMasks(session), drawn, plat)
      && GoodLog(log, plat)
    }

    ghost function Abstract(): State
      reads this`session, this`shield
    {
      State(SessionView(session), shield)
    }

    constructor (cfg: Config, plat: Platform)
      requires Sound(plat)
      ensures Valid() && this.cfg == cfg && this.plat == plat
      ensures engine == map[] && Abstract() == State(Closed, cfg.base) && drawn == [] && log == Log([], [])
    {
      this.cfg := cfg;
      this.plat := plat;
      engine := map[];
      weights := map[];
      shield := cfg.base;
      session := NoSession;
      stackedScratch := map[];
      perSeqScratch := map[];
      drawn := [];
      log := Log([], []);
    }

    method ProvisionWeight(h: WeightHandle, m: Mat, d: nat, p: nat)
      requires Valid() && IsMat(m, d, p)
      modifies this`engine, this`weights
      ensures Valid() && engine == old(engine)[h := Weight(m, d, p)]
    {
      if cfg.probes > 0 {
        weights := weights[h := Weight(m, d, p)];
      }
      engine := engine[h := Weight(m, d, p)];
    }

    // ─── brackets ───

    /** One mask over all rows, drawn here. */
    method OpenSingle(n: nat, s: Shield, rnd: Randomness) returns (out: Outcome<seq<Mat>>)
      requires Valid() && cfg.perForward
      modifies this`shield, this`session, this`stackedScratch, this`perSeqScratch, this`drawn
      ensures out == OpenRows(cfg, old(Abstract()), n, s).1
      ensures !out.Panic? ==> Valid() && Abstract() == OpenRows(cfg, old(Abstract()), n, s).0
      ensures !out.Panic? ==> drawn == DrawsOf(rnd, 1) && AllSampled(SessionMasks(session), DrawsOf(rnd, 1), plat)
    {
      hide Sampled, GoodMask, MadeFrom, ValidEngine, Sound, GoodLog, Buildable;
      shield := s;
      if !Buildable(cfg.kind, n + shield.k) {
        return Panic;
      }
      var mask := MaskFor(cfg, n, shield.k, rnd.mask(0), plat);
      session := Single(mask, n);
      drawn := DrawsOf(rnd, 1);
      stackedScratch := map[];
      perSeqScratch := map[];
      return Ok([]);
    }

    /** One mask per sequence, each from its own draw. */
    method OpenSequences(batch: nat, n: nat, s: Shield, rnd: Randomness) returns (out: Outcome<seq<Mat>>)
      requires Valid() && cfg.perForward && batch > 0 && n > 0
      modifies this`shield, this`session, this`stackedScratch, this`perSeqScratch, this`drawn
      ensures Valid() && (Abstract(), out) == OpenBatch(cfg, old(Abstract()), batch, n, s)
      ensures drawn == DrawsOf(rnd, batch) && AllSampled(SessionMasks(session), DrawsOf(rnd, batch), plat)
    {
      shield := s;
      var masks := MasksFor(cfg, batch, n, shield.k, rnd.mask, plat);
      hide Sampled, GoodMask, MadeFrom, ValidEngine, Sound, GoodLog;
      session := PerSequence(masks, n, batch);
      drawn := DrawsOf(rnd, batch);
      stackedScratch := map[];
      perSeqScratch := map[];
      return Ok([]);
    }

    method BeginForwardPass(n: nat, rnd: Randomness) returns (out: Outcome<seq<Mat>>)
      requires Valid()
      modifies this`shield, this`session, this`stackedScratch, this`perSeqScratch, this`drawn
      ensures out == Step(cfg, engine, old(Abstract()), BeginForward(n)).1
      ensures !out.Panic? ==> Valid() && Abstract() == Step(cfg, engine, old(Abstract()), BeginForward(n)).0
      ensures !out.Panic? ==> drawn == DrawnNext(cfg, old(Abstract()), old(drawn), BeginForward(n), rnd)
      ensures !out.Panic? ==> AllSampled(SessionMasks(session), drawn, plat)
    {
      if !cfg.perForward {
        return Ok([]);
      }
      out := OpenSingle(n, PickShield(cfg, n), rnd);
    }

    method BeginPrefillPass(batch: nat, nMax: nat, rnd: Randomness) returns (out: Outcome<seq<Mat>>)
      requires Valid()
      modifies this`shield, this`session, this`stackedScratch, this`perSeqScratch, this`drawn
      ensures Valid() && (Abstract(), out) == Step(cfg, engine, old(Abstract()), BeginPrefill(batch, nMax))
      ensures drawn == DrawnNext(cfg, old(Abstract()), old(drawn), BeginPrefill(batch, nMax), rnd)
           && AllSampled(SessionMasks(session), drawn, plat)
    {
      if !cfg.perForward {
        return Ok([]);
      }
      if batch == 0 {
        return Err(EmptyBatch);
      }
      if nMax == 0 {
        return Err(EmptySequence);
      }
      out := OpenSequences(batch, nMax, PickShield(cfg, nMax), rnd);
    }

    /** One shared mask over all sequences, or one mask per sequence of a single row. */
    method BeginDecodePass(batch: nat, shared: bool, rnd: Randomness) returns (out: Outcome<seq<Mat>>)
      requires Valid()
      modifies this`shield, this`session, this`stackedScratch, this`perSeqScratch, this`drawn
      ensures Valid() && (Abstract(), out) == Step(cfg, engine, old(Abstract()), BeginDecode(batch, shared))
      ensures drawn == DrawnNext(cfg, old(Abstract()), old(drawn), BeginDecode(batch, shared), rnd)
           && AllSampled(SessionMasks(session), drawn, plat)
    {
      if !cfg.perForward {
        return Ok([]);
      }
      if batch == 0 {
        return Err(EmptyBatch);
      }
      if shared {
        out := OpenSingle(batch, SharedShield(cfg, batch), rnd);
      } else {
        out := OpenSequences(batch, 1, PickShield(cfg, 1), rnd);
      }
    }

    method EndForwardPass()
      requires Valid()
      modifies this`session, this`stackedScratch, this`perSeqScratch, this`drawn
      ensures Valid() && Abstract() == Step(cfg, engine, old(Abstract()), End).0 && session == NoSession && drawn == []
      ensures stackedScratch == map[] && perSeqScratch == map[]
    {
      session := NoSession;
      drawn := [];
      stackedScratch := map[];
      perSeqScratch := map[];
    }

    /** Hands one operand to the engine. Only an operand made from its origin may be handed over. */
    method Dispatch(handles: seq<WeightHandle>, operand: Mat, d: nat, ghost veil: Veil, ghost o: Origin)
      returns (reply: Outcome<seq<Mat>>)
      requires Sound(plat) && GoodLog(log, plat) && MadeFrom(Sent(operand, d, shield, veil), o, plat)
      modifies this`log
      ensures Extends(old(log), log, [o]) && GoodLog(log, plat)
      ensures old(Valid()) ==> Valid()
      ensures reply == MatmulMany(engine, handles, operand, d)
    {
      hide MadeFrom, GoodLog, AllSampled, MatmulMany, Extends;
      SentGood(log, Sent(operand, d, shield, veil), o, plat);
      ExtendsOne(log, Sent(operand, d, shield, veil), o);
      log := Log(log.seen + [Sent(operand, d, shield, veil)], log.origins + [o]);
      reply := MatmulMany(engine, handles, operand, d);
    }

    // ─── offloads under one mask ───

    /** The session mask if it matches, else one drawn here. */
    method ResolveMask(n: nat, rnd: Randomness) returns (ok: bool, mask: MaskFamily)
      requires Valid() && !session.PerSequence?
      ensures ok <==> Fits(cfg, Abstract(), n)
      ensures ok ==> GoodMask(cfg, shield.k, mask, n) && AllSampled([mask], MaskDraws(cfg, drawn, rnd), plat)
      ensures ok && cfg.perForward ==> session == Single(mask, n)
    {
      hide Sampled, ValidEngine, MadeFrom, GoodLog;
      mask := Dense(0, []);
      if cfg.perForward {
        if session.Single? && session.dataN == n && Side(session.mask) == Height(cfg.kind, n + shield.k) {
          mask := session.mask;
          return true, mask;
        }
        SessionHeight(cfg, shield.k, session);
        return false, mask;
      }
      if !Buildable(cfg.kind, n + shield.k) {
        return false, mask;
      }
      mask := MaskFor(cfg, n, shield.k, rnd.mask(0), plat);
      return true, mask;
    }

    /** Stacks and masks. The scratch is taken out for the structured families and keeps the
        plain stack for the dense one. */
    method BuildShieldedAndApply(hidden: Mat, d: nat, rnd: Randomness)
      returns (ok: bool, mask: MaskFamily, masked: Mat)
      requires Valid() && !session.PerSequence? && IsMat(hidden, |hidden|, d)
      modifies this`stackedScratch
      ensures ok <==> Fits(cfg, Abstract(), |hidden|)
      ensures ok ==> IsMasked(masked, mask, hidden, shield, d, plat, rnd.shield(0))
      ensures ok ==> AllSampled([mask], MaskDraws(cfg, drawn, rnd), plat)
      ensures ok && cfg.perForward ==> session == Single(mask, |hidden|)
    {
      hide *;
      masked := [];
      ValidParts();
      ok, mask := ResolveMask(|hidden|, rnd);
      if !ok {
        return;
      }
      GoodMaskFits(cfg, shield.k, mask, |hidden|);
      if cfg.perForward && shield.k > 0 {
        var pool;
        masked, pool := StackPooled(stackedScratch, mask, hidden, shield, d, plat, rnd.shield(0));
        stackedScratch := pool;
      } else {
        masked := StackFresh(mask, hidden, shield, d, plat, rnd.shield(0));
      }
    }

    /** Puts the masked buffer back for the next offload of the same width. */
    method ReturnApplyScratch(masked: Mat, d: nat)
      modifies this`stackedScratch
      ensures stackedScratch == if cfg.perForward && shield.k > 0 && cfg.kind != HaarKind
                                then old(stackedScratch)[d := masked] else old(stackedScratch)
    {
      if cfg.perForward && shield.k > 0 && cfg.kind != HaarKind {
        stackedScratch := stackedScratch[d := masked];
      }
    }

    /** One masked operand handed over and its answer settled. */
    method Exchange(handles: seq<WeightHandle>, mask: MaskFamily, masked: Mat, hidden: Mat, d: nat, rnd: Randomness,
                    ghost o: Origin)
      returns (out: Outcome<seq<Mat>>)
      requires Valid() && Haar.IsSqrt(plat.sqrt) && IsMat(hidden, |hidden|, d)
      requires IsMasked(masked, mask, hidden, shield, d, plat, rnd.shield(0))
      requires MadeFrom(Sent(masked, d, shield, One(mask, hidden, rnd.shield(0))), o, plat)
      modifies this`log
      ensures Valid() && Extends(old(log), log, [o])
      ensures out == MatmulMany(engine, handles, hidden, d)
    {
      hide *;
      ValidParts();
      var reply := Dispatch(handles, masked, d, One(mask, hidden, rnd.shield(0)), o);
      SameFailure(engine, handles, masked, hidden, d);
      if reply.Err? {
        return reply;
      }
      AnsweredOk(engine, handles, masked, d);
      out := Answer(engine, weights, cfg.probes, handles, mask, masked, hidden, shield, d, plat, rnd.shield(0),
                    reply.value, rnd.probe);
    }

    method OffloadSingle(handles: seq<WeightHandle>, hidden: Mat, d: nat, rnd: Randomness)
      returns (out: Outcome<seq<Mat>>)
      requires Valid() && !session.PerSequence? && IsMat(hidden, |hidden|, d)
      modifies this`stackedScratch, this`log
      ensures Valid()
      ensures out == if Fits(cfg, Abstract(), |hidden|) then MatmulMany(engine, handles, hidden, d) else Panic
      ensures Extends(old(log), log, if Fits(cfg, Abstract(), |hidden|)
                                     then [Origin(hidden, d, shield, MaskDraws(cfg, drawn, rnd), rnd.shield)] else [])
    {
      hide *;
      ValidParts();
      ExtendsNone(log);
      var ok, mask, masked := BuildShieldedAndApply(hidden, d, rnd);
      if !ok {
        return Panic;
      }
      ghost var o := Origin(hidden, d, shield, MaskDraws(cfg, drawn, rnd), rnd.shield);
      OneMade(masked, mask, hidden, shield, d, plat, o);
      out := Exchange(handles, mask, masked, hidden, d, rnd, o);
      ReturnApplyScratch(masked, d);
    }

    // ─── offloads of a batch ───

    /** Stacks and masks every sequence under the session's masks, over a pooled buffer. */
    method BuildPerSequenceMasked(hidden: Mat, d: nat, rnd: Randomness) returns (rows: Mat, s: nat)
      requires Valid() && session.PerSequence? && IsMat(hidden, |hidden|, d) && |hidden| >= Covered(session)
      modifies this`perSeqScratch
      ensures session.dataN + shield.k <= s
      ensures IsMat(hidden[..Covered(session)], Offset(|session.masks|, session.dataN), d)
      ensures Haar.IsSqrt(plat.sqrt)
           && MaskedBatch(rows, session.masks, hidden[..Covered(session)], session.dataN, shield, s, d, plat,
                          rnd.shield)
    {
      var masks, dataN, batch := session.masks, session.dataN, session.batch;
      s := Side(masks[0]);
      SessionSides(cfg, shield.k, session, s);
      BatchLength(batch, dataN);
      BatchLength(batch, s);
      ghost var used := hidden[..batch * dataN];
      hide *;
      var buf := TakeScratch(perSeqScratch, d, batch * s);
      perSeqScratch := perSeqScratch - {d};
      MaskSequences(buf, hidden, masks, dataN, shield, s, d, plat, rnd.shield);
      BatchPrefix(buf[..], masks, hidden, dataN, shield, s, d, plat, rnd.shield);
      rows := buf[..];
    }

    method OffloadSequences(handles: seq<WeightHandle>, hidden: Mat, d: nat, rnd: Randomness)
      returns (out: Outcome<seq<Mat>>)
      requires Valid() && session.PerSequence? && IsMat(hidden, |hidden|, d)
      modifies this`perSeqScratch, this`log
      ensures Valid()
      ensures out == if |hidden| < Covered(session) || d == 0 then Panic
                     else CutIntoBlocks(engine, handles, MatmulMany(engine, handles, hidden[..Covered(session)], d))
      ensures Extends(old(log), log, if |hidden| < Covered(session) || d == 0 then []
                                     else [Origin(hidden[..Covered(session)], d, shield, drawn, rnd.shield)])
    {
      hide *;
      var masks, dataN := session.masks, session.dataN;
      ValidParts();
      SessionSampled();
      ExtendsNone(log);
      if d == 0 || |hidden| < Covered(session) {
        return Panic;
      }
      ghost var used := hidden[..Covered(session)];
      ghost var o := Origin(used, d, shield, drawn, rnd.shield);
      var rows, s := BuildPerSequenceMasked(hidden, d, rnd);
      ManyMade(rows, masks, used, dataN, s, shield, d, plat, o);
      var reply := Dispatch(handles, rows, d, Many(masks, used, dataN, s, rnd.shield), o);
      SameFailure(engine, handles, rows, used, d);
      BlocksCut(engine, handles, used, d);
      if reply.Err? {
        return reply;
      }
      AnsweredOk(engine, handles, rows, d);
      out := AnswerSequences(engine, weights, cfg.probes, handles, rows, masks, used, dataN, shield, s, d, plat,
                             rnd.shield, reply.value, rnd.probe);
      if cfg.perForward && cfg.kind != HaarKind {
        perSeqScratch := perSeqScratch[d := rows];
      }
    }

    // ─── the executor's interface ───

    method OffloadLinear(h: WeightHandle, hidden: Mat, d: nat, rnd: Randomness) returns (out: Outcome<seq<Mat>>)
      requires Valid() && IsMat(hidden, |hidden|, d)
      modifies this`stackedScratch, this`perSeqScratch, this`log
      ensures Valid()
      ensures out == LinearResult(cfg, engine, Abstract(), h, hidden, d)
      ensures Extends(old(log), log, SentBy(cfg, Abstract(), drawn, Linear(h, hidden, d), rnd))
    {
      OneHandle(engine, h, hidden, d);
      ExtendsNone(log);
      hide Extends, Valid, MatmulMany, Matmul, Fits, HaveColumns, MaskDraws;
      if session.PerSequence? {
        if |hidden| != Covered(session) {
          return Panic;
        }
        if !cfg.perForward {
          NoBatch();
          assert false;
          return Err(NeedsPerForward);
        }
        assert hidden[..Covered(session)] == hidden;
        out := OffloadSequences([h], hidden, d, rnd);
      } else {
        out := OffloadSingle([h], hidden, d, rnd);
      }
    }

    method OffloadShared(handles: seq<WeightHandle>, hidden: Mat, d: nat, rnd: Randomness)
      returns (out: Outcome<seq<Mat>>)
      requires Valid() && IsMat(hidden, |hidden|, d)
      modifies this`stackedScratch, this`perSeqScratch, this`log
      ensures Valid()
      ensures out == ManyResult(cfg, engine, Abstract(), handles, hidden, d)
      ensures Extends(old(log), log, HandedOver(cfg, Abstract(), drawn, hidden, d, false, rnd))
    {
      hide Extends, Valid, MatmulMany, Fits, HaveColumns, MaskDraws;
      if session.PerSequence? {
        out := OffloadSequences(handles, hidden, d, rnd);
      } else {
        out := OffloadSingle(handles, hidden, d, rnd);
      }
    }

    method OffloadQkv(layer: nat, hidden: Mat, d: nat, rnd: Randomness) returns (out: Outcome<seq<Mat>>)
      requires Valid() && IsMat(hidden, |hidden|, d)
      modifies this`stackedScratch, this`perSeqScratch, this`log
      ensures Valid()
      ensures out == ManyResult(cfg, engine, Abstract(), QkvHandles(layer), hidden, d)
      ensures !out.Panic? ==>
                out == Three(Matmul(engine, WeightHandle(layer, Q), UsedRows(Abstract(), hidden), d),
                             Matmul(engine, WeightHandle(layer, K), UsedRows(Abstract(), hidden), d),
                             Matmul(engine, WeightHandle(layer, V), UsedRows(Abstract(), hidden), d))
      ensures Extends(old(log), log, SentBy(cfg, Abstract(), drawn, Qkv(layer, hidden, d), rnd))
    {
      QkvAnswers(cfg, engine, Abstract(), layer, hidden, d);
      hide Extends, Valid, ManyResult, HandedOver, Matmul;
      out := OffloadShared(QkvHandles(layer), hidden, d, rnd);
    }

    method OffloadLinearMany(handles: seq<WeightHandle>, hidden: Mat, d: nat, rnd: Randomness)
      returns (out: Outcome<seq<Mat>>)
      requires Valid() && IsMat(hidden, |hidden|, d)
      modifies this`stackedScratch, this`perSeqScratch, this`log
      ensures Valid()
      ensures out == if handles == [] then Ok([]) else ManyResult(cfg, engine, Abstract(), handles, hidden, d)
      ensures Extends(old(log), log, SentBy(cfg, Abstract(), drawn, LinearMany(handles, hidden, d), rnd))
    {
      ExtendsNone(log);
      hide Extends, Valid, ManyResult, HandedOver;
      if |handles| == 0 {
        return Ok([]);
      }
      out := OffloadShared(handles, hidden, d, rnd);
    }

    method PerformOffload(op: Op, rnd: Randomness) returns (out: Outcome<seq<Mat>>)
      requires Valid() && WellShaped(op) && IsOffload(op)
      modifies this`stackedScratch, this`perSeqScratch, this`log
      ensures Valid() && (Abstract(), out) == Step(cfg, engine, old(Abstract()), op)
      ensures Extends(old(log), log, SentBy(cfg, old(Abstract()), drawn, op, rnd))
    {
      StepIs(cfg, engine, Abstract(), op);
      assert IsMat(op.hidden, |op.hidden|, op.d) && (op.Linear? || op.Qkv? || op.LinearMany?);
      hide *;
      match op {
        case Linear(h, hidden, d) => out := OffloadLinear(h, hidden, d, rnd);
        case Qkv(layer, hidden, d) => out := OffloadQkv(layer, hidden, d, rnd);
        case LinearMany(handles, hidden, d) => out := OffloadLinearMany(handles, hidden, d, rnd);
      }
    }

    method PerformBracket(op: Op, rnd: Randomness) returns (out: Outcome<seq<Mat>>)
      requires Valid() && !IsOffload(op)
      modifies this`shield, this`session, this`stackedScratch, this`perSeqScratch, this`drawn
      ensures out == Step(cfg, engine, old(Abstract()), op).1
      ensures !out.Panic? ==> Valid() && Abstract() == Step(cfg, engine, old(Abstract()), op).0
      ensures !out.Panic? ==> drawn == DrawnNext(cfg, old(Abstract()), old(drawn), op, rnd)
    {
      StepIs(cfg, engine, Abstract(), op);
      assert op.BeginForward? || op.BeginPrefill? || op.BeginDecode? || op.End?;
      assert op.End? ==> DrawnNext(cfg, Abstract(), drawn, op, rnd) == [];
      hide *;
      match op {
        case BeginForward(n) => out := BeginForwardPass(n, rnd);
        case BeginPrefill(batch, n) => out := BeginPrefillPass(batch, n, rnd);
        case BeginDecode(batch, shared) => out := BeginDecodePass(batch, shared, rnd);
        case End =>
          EndForwardPass();
          out := Ok([]);
      }
    }

    method Perform(op: Op, rnd: Randomness) returns (out: Outcome<seq<Mat>>)
      requires Valid() && WellShaped(op)
      modifies this`shield, this`session, this`stackedScratch, this`perSeqScratch, this`drawn, this`log
      ensures out == Step(cfg, engine, old(Abstract()), op).1
      ensures !out.Panic? ==> Valid() && Abstract() == Step(cfg, engine, old(Abstract()), op).0
      ensures !out.Panic? ==> drawn == DrawnNext(cfg, old(Abstract()), old(drawn), op, rnd)
      ensures GoodLog(log, plat) && Extends(old(log), log, SentBy(cfg, old(Abstract()), old(drawn), op, rnd))
    {
      ValidLog();
      ExtendsNone(log);
      OneKind(cfg, Abstract(), drawn, op, rnd);
      hide *;
      if IsOffload(op) {
        out := PerformOffload(op, rnd);
        ValidLog();
      } else {
        out := PerformBracket(op, rnd);
      }
    }

    /** Any run, from any valid state: the outputs are those of the mask-free machine, and the
        engine has been given exactly the run's operands, each masked from its origin. */
    method Run(ops: seq<Op>, rnd: nat -> Randomness) returns (outs: seq<Outcome<seq<Mat>>>)
      requires Valid() && forall op :: op in ops ==> WellShaped(op)
      modifies this`shield, this`session, this`stackedScratch, this`perSeqScratch, this`drawn, this`log
      ensures outs == Trace(cfg, engine, old(Abstract()), ops)
      ensures GoodLog(log, plat)
              && Extends(old(log), log, Origins(cfg, engine, old(Abstract()), old(drawn), ops, rnd, 0))
    {
      hide *;
      outs := [];
      ghost var start, first := Abstract(), drawn;
      ghost var sent: seq<Origin> := [];
      assert ops[0..] == ops;
      ExtendsNone(log);
      for i := 0 to |ops|
        invariant Valid()
        invariant outs + Trace(cfg, engine, Abstract(), ops[i..]) == Trace(cfg, engine, start, ops)
        invariant sent + Origins(cfg, engine, Abstract(), drawn, ops, rnd, i)
                  == Origins(cfg, engine, start, first, ops, rnd, 0)
        invariant Extends(old(log), log, sent)
      {
        ghost var st, was, mid := Abstract(), drawn, log;
        TraceHead(cfg, engine, st, ops, i);
        OriginsHead(cfg, engine, st, was, ops, rnd, i);
        assert ops[i] in ops;
        var out := Perform(ops[i], rnd(i));
        outs := outs + [out];
        ghost var more := SentBy(cfg, st, was, ops[i], rnd(i));
        ExtendsTwice(old(log), mid, log, sent, more);
        if out.Panic? {
          assert sent + (more + []) == sent + more;
          return;
        }
        Grouped(sent, more, Origins(cfg, engine, Abstract(), drawn, ops, rnd, i + 1));
        sent := sent + more;
      }
      assert sent + [] == sent;
      TraceEnd(cfg, engine, Abstract(), ops);
      OriginsEnd(cfg, engine, Abstract(), drawn, ops, rnd);
      ValidLog();
    }

    lemma {:induction false} ValidParts()
      requires Valid()
      ensures Sound(plat) && Haar.IsSqrt(plat.sqrt) && GoodLog(log, plat) && ValidEngine(engine) && ValidEngine(weights)
      ensures weights == if cfg.probes > 0 then engine else map[]
    {
    }

    lemma {:induction false} ValidLog()
      requires Valid()
      ensures Haar.IsSqrt(plat.sqrt) && GoodLog(log, plat)
    {
    }

    lemma {:induction false} SessionSampled()
      requires Valid() && session.PerSequence?
      ensures AllSampled(session.masks, drawn, plat)
    {
    }

    lemma {:induction false} NoBatch()
      requires Valid() && session.PerSequence?
      ensures cfg.perForward
    {
    }

    /** Brackets one after another from a closed session: exactly the plain outputs, and every operand
        under masks drawn for its own bracket or offload. */
    method RunBrackets(brackets: seq<Bracket>, rnd: nat -> Randomness) returns (outs: seq<Outcome<seq<Mat>>>)
      requires Valid() && session == NoSession
      requires forall b :: b in brackets ==> BracketOf(b.begin, b.ops) && BracketFits(cfg, engine, b.begin, b.ops)
      requires forall op :: op in Flat(brackets) ==> WellShaped(op)
      modifies this`shield, this`session, this`stackedScratch, this`perSeqScratch, this`drawn, this`log
      ensures outs == PlainRun(engine, Flat(brackets))
      ensures GoodLog(log, plat)
      ensures Extends(old(log), log, Origins(cfg, engine, old(Abstract()), old(drawn), Flat(brackets), rnd, 0))
      ensures forall t {:trigger log.origins[t]} | |old(log.origins)| <= t < |log.origins| ::
                Fresh(log.origins[t], cfg, Flat(brackets), rnd)
    {
      ValidLog();
      RunsPlain(cfg, engine, Abstract(), brackets);
      hide Trace, PlainRun, Flat, BracketOf, Fresh, Origins, BracketFits;
      OriginsFresh(cfg, engine, Abstract(), drawn, Flat(brackets), rnd, 0);
      outs := Run(Flat(brackets), rnd);
    }
  }

  ghost predicate WellShaped(op: Op) {
    IsOffload(op) ==> IsMat(op.hidden, |op.hidden|, op.d)
  }

  /** The mask-free machine answers an offload in place. */
  lemma {:induction false} StepIs(cfg: Config, engine: Engine, st: State, op: Op)
    ensures op.Linear? ==> Step(cfg, engine, st, op) == (st, LinearResult(cfg, engine, st, op.h, op.hidden, op.d))
    ensures op.Qkv? ==>
              Step(cfg, engine, st, op) == (st, ManyResult(cfg, engine, st, QkvHandles(op.layer), op.hidden, op.d))
    ensures op.LinearMany? ==>
              Step(cfg, engine, st, op) == (st, if op.handles == [] then Ok([])
                                            else ManyResult(cfg, engine, st, op.handles, op.hidden, op.d))
    ensures op.End? ==> Step(cfg, engine, st, op).1 == Ok([])
  {
  }

  lemma {:induction false} TraceHead(cfg: Config, engine: Engine, st: State, ops: seq<Op>, i: nat)
    requires i < |ops|
    ensures var (next, out) := Step(cfg, engine, st, ops[i]);
            Trace(cfg, engine, st, ops[i..])
            == if out.Panic? then [Panic] else [out] + Trace(cfg, engine, next, ops[i + 1..])
  {
    hide Step;
    assert ops[i..][0] == ops[i] && ops[i..][1..] == ops[i + 1..];
  }

  lemma {:induction false} TraceEnd(cfg: Config, engine: Engine, st: State, ops: seq<Op>)
    ensures Trace(cfg, engine, st, ops[|ops|..]) == []
  {
  }

  lemma {:induction false} OriginsHead(cfg: Config, engine: Engine, st: State, drawn: seq<Draws>, ops: seq<Op>,
                                       rnd: nat -> Randomness, i: nat)
    requires i < |ops|
    ensures var (next, out) := Step(cfg, engine, st, ops[i]);
            Origins(cfg, engine, st, drawn, ops, rnd, i)
            == SentBy(cfg, st, drawn, ops[i], rnd(i))
               + if out.Panic? then []
                   else Origins(cfg, engine, next, DrawnNext(cfg, st, drawn, ops[i], rnd(i)), ops, rnd, i + 1)
  {
    hide Step, SentBy, DrawnNext;
  }

  lemma {:induction false} OriginsEnd(cfg: Config, engine: Engine, st: State, drawn: seq<Draws>, ops: seq<Op>,
                                      rnd: nat -> Randomness)
    ensures Origins(cfg, engine, st, drawn, ops, rnd, |ops|) == []
  {
  }

  /** An offload keeps the session's draws; a bracket operation hands nothing over. */
  lemma {:induction false} OneKind(cfg: Config, st: State, drawn: seq<Draws>, op: Op, rnd: Randomness)
    ensures IsOffload(op) ==> DrawnNext(cfg, st, drawn, op, rnd) == drawn
    ensures !IsOffload(op) ==> SentBy(cfg, st, drawn, op, rnd) == []
  {
  }

  lemma {:induction false} Grouped(a: seq<Origin>, b: seq<Origin>, c: seq<Origin>)
    ensures a + (b + c) == (a + b) + c
  {
  }

  /** What the executor makes of an honest answer: checked, unmasked and stripped, the plain answer. */
  method Answer(engine: Engine, weights: Engine, count: nat, handles: seq<WeightHandle>, mask: MaskFamily, masked: Mat,
                hidden: Mat, ghost shield: Shield, d: nat, ghost plat: Platform, ghost z: (int, int) -> real,
                outs: seq<Mat>, coeff: (nat, nat, nat) -> int)
    returns (out: Outcome<seq<Mat>>)
    requires ValidEngine(engine) && ValidEngine(weights) && weights == (if count > 0 then engine else map[])
    requires Haar.IsSqrt(plat.sqrt) && IsMasked(masked, mask, hidden, shield, d, plat, z)
    requires IsMat(hidden, |hidden|, d) && MatmulMany(engine, handles, masked, d) == Ok(outs)
    ensures out == MatmulMany(engine, handles, hidden, d)
  {
    hide *;
    MaskedFits(masked, mask, hidden, shield, d, plat, z);
    HonestSettled(engine, weights, count, handles, mask, masked, hidden, shield, d, plat, z, outs, coeff);
    out := Settle(weights, count, handles, mask, masked, |hidden|, d, outs, Widths(engine, handles), coeff);
  }

  /** The same for a batch. */
  method AnswerSequences(engine: Engine, weights: Engine, count: nat, handles: seq<WeightHandle>, rows: Mat,
                         masks: seq<MaskFamily>, ghost hidden: Mat, dataN: nat, ghost shield: Shield, s: nat, d: nat,
                         ghost plat: Platform, ghost z: nat -> (int, int) -> real, outs: seq<Mat>,
                         coeff: (nat, nat, nat) -> int)
    returns (out: Outcome<seq<Mat>>)
    requires ValidEngine(engine) && ValidEngine(weights) && weights == (if count > 0 then engine else map[])
    requires Haar.IsSqrt(plat.sqrt) && MaskedBatch(rows, masks, hidden, dataN, shield, s, d, plat, z)
    requires IsMat(hidden, Offset(|masks|, dataN), d) && dataN <= s && MatmulMany(engine, handles, rows, d) == Ok(outs)
    ensures out == CutIntoBlocks(engine, handles, MatmulMany(engine, handles, hidden, d))
  {
    hide *;
    BlocksCut(engine, handles, hidden, d);
    SameFailure(engine, handles, rows, hidden, d);
    AnsweredOk(engine, handles, hidden, d);
    BatchFits(rows, masks, hidden, dataN, shield, s, d, plat, z);
    HonestSettledSequences(engine, weights, count, handles, rows, masks, hidden, dataN, shield, s, d, plat, z, outs,
                           coeff);
    out := SettleSequences(weights, count, handles, rows, masks, dataN, s, d, outs, Widths(engine, handles), coeff);
  }

  lemma {:induction false} AnsweredOk(engine: Engine, handles: seq<WeightHandle>, x: Mat, d: nat)
    requires !MatmulMany(engine, handles, x, d).Err?
    ensures MatmulMany(engine, handles, x, d).Ok?
  {
  }

  lemma {:induction false} BlocksCut(engine: Engine, handles: seq<WeightHandle>, x: Mat, d: nat)
    ensures var r := MatmulMany(engine, handles, x, d);
            CutIntoBlocks(engine, handles, r) == if r.Ok? && !HaveColumns(engine, handles) then Panic else r
  {
  }

  lemma {:induction false} OneHandle(engine: Engine, h: WeightHandle, x: Mat, d: nat)
    ensures MatmulMany(engine, [h], x, d) == Lift(Matmul(engine, h, x, d))
  {
    var none := MatmulMany(engine, [], x, d);
    var first := Matmul(engine, h, x, d);
    assert [h][1..] == [] && none == Ok([]);
    if first.Ok? {
      assert [first.value] + none.value == [first.value];
    }
  }

  /** Whether the engine refuses a dispatch does not depend on the operand's entries. */
  lemma {:induction false} SameFailure(engine: Engine, handles: seq<WeightHandle>, x: Mat, y: Mat, d: nat)
    ensures MatmulMany(engine, handles, x, d).Err? <==> MatmulMany(engine, handles, y, d).Err?
    ensures MatmulMany(engine, handles, x, d).Err? ==>
              MatmulMany(engine, handles, x, d) == MatmulMany(engine, handles, y, d)
  {
    if handles != [] {
      SameFailure(engine, handles[1..], x, y, d);
    }
  }

  lemma {:induction false} MaskedFits(masked: Mat, mask: MaskFamily, hidden: Mat, shield: Shield, d: nat,
                                      plat: Platform, z: (int, int) -> real)
    requires Haar.IsSqrt(plat.sqrt) && IsMasked(masked, mask, hidden, shield, d, plat, z)
    ensures ValidFamily(mask) && |hidden| <= Side(mask) && IsMat(masked, Side(mask), d)
  {
  }

  lemma {:induction false} BatchFits(rows: Mat, masks: seq<MaskFamily>, hidden: Mat, dataN: nat, shield: Shield, s: nat,
                                     d: nat, plat: Platform, z: nat -> (int, int) -> real)
    requires Haar.IsSqrt(plat.sqrt) && MaskedBatch(rows, masks, hidden, dataN, shield, s, d, plat, z)
    ensures SameSide(masks, s) && IsMat(rows, Offset(|masks|, s), d)
  {
  }

  lemma {:induction false} BatchLength(batch: nat, n: nat)
    ensures Offset(batch, n) == batch * n >= 0
  {
  }

  lemma {:induction false} SessionSides(cfg: Config, k: nat, session: Session, s: nat)
    requires ValidSession(cfg, k, session) && session.PerSequence? && s == Side(session.masks[0])
    ensures SameSide(session.masks, s) && session.dataN + k <= s
  {
  }
}

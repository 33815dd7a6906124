/** The canonical bytes of a key-derivation policy and its public parameters, as folded into
    the attestation report. Floats are 32-bit patterns. */
module Keying {

  const WORDS: nat := 0x1_0000_0000

  type word = w: nat | w < WORDS

  type byte = b: nat | b < 256

  // ─── how values are written ───

  function Digit(d: nat): (c: char)
    requires d < 16
    ensures c != '\n'
  {
    "0123456789abcdef"[d]
  }

  function DigitValue(c: char): nat {
    if '0' <= c <= '9' then (c - '0') as nat else if 'a' <= c <= 'f' then (c - 'a') as nat + 10 else 0
  }

  lemma {:induction false} DigitBack(d: nat)
    requires d < 16
    ensures DigitValue(Digit(d)) == d
  {
  }

  predicate OneLine(s: string) {
    forall c :: c in s ==> c != '\n'
  }

  /** Decimal, without leading zeros. */
  function Decimal(n: nat): (s: string)
    ensures OneLine(s) && s != []
  {
    if n < 10 then [Digit(n)] else Decimal(n / 10) + [Digit(n % 10)]
  }

  function DecimalValue(s: string): nat {
    if s == [] then 0 else 10 * DecimalValue(s[..|s| - 1]) + DigitValue(s[|s| - 1])
  }

  lemma {:induction false} DecimalBack(n: nat)
    ensures DecimalValue(Decimal(n)) == n
  {
    DigitBack(n % 10);
    if n < 10 {
      assert DecimalValue([]) == 0;
      assert Decimal(n)[..0] == [];
    } else {
      DecimalBack(n / 10);
      assert Decimal(n)[..|Decimal(n)| - 1] == Decimal(n / 10);
    }
  }

  function Pow16(k: nat): (p: nat)
    ensures p >= 1
  {
    if k == 0 then 1 else 16 * Pow16(k - 1)
  }

  /** Exactly `k` hexadecimal digits. */
  function Hex(w: nat, k: nat): (s: string)
    ensures OneLine(s) && |s| == k
  {
    if k == 0 then [] else Hex(w / 16, k - 1) + [Digit(w % 16)]
  }

  function HexValue(s: string): nat {
    if s == [] then 0 else 16 * HexValue(s[..|s| - 1]) + DigitValue(s[|s| - 1])
  }

  lemma {:induction false} HexBack(w: nat, k: nat)
    requires w < Pow16(k)
    ensures HexValue(Hex(w, k)) == w
  {
    if k > 0 {
      DigitBack(w % 16);
      HexBack(w / 16, k - 1);
      assert Hex(w, k)[..k - 1] == Hex(w / 16, k - 1);
    }
  }

  function Bits(w: word): (s: string)
    ensures OneLine(s)
  {
    Hex(w, 8)
  }

  lemma {:induction false} BitsInjective(a: word, b: word)
    requires Bits(a) == Bits(b)
    ensures a == b
  {
    assert Pow16(8) == 16 * Pow16(7) == 256 * Pow16(6) == 4096 * Pow16(5) == 65536 * Pow16(4);
    assert Pow16(4) == 16 * Pow16(3) == 256 * Pow16(2) == 4096 * Pow16(1) == 65536;
    HexBack(a, 8);
    HexBack(b, 8);
  }

  lemma {:induction false} DecimalInjective(a: nat, b: nat)
    requires Decimal(a) == Decimal(b)
    ensures a == b
  {
    DecimalBack(a);
    DecimalBack(b);
  }

  /** Two hexadecimal digits per byte. */
  function Seed(bytes: seq<byte>): (s: string)
    ensures OneLine(s) && |s| == 2 * |bytes|
  {
    if bytes == [] then [] else Hex(bytes[0], 2) + Seed(bytes[1..])
  }

  lemma {:induction false} SeedInjective(a: seq<byte>, b: seq<byte>)
    requires Seed(a) == Seed(b)
    ensures a == b
  {
    if a == [] {
    } else {
      assert |b| > 0;
      assert Hex(a[0], 2) == Seed(a)[..2] == Seed(b)[..2] == Hex(b[0], 2);
      assert Seed(a[1..]) == Seed(a)[2..] == Seed(b)[2..] == Seed(b[1..]);
      assert Pow16(2) == 16 * Pow16(1) == 256;
      HexBack(a[0], 2);
      HexBack(b[0], 2);
      SeedInjective(a[1..], b[1..]);
    }
  }

  // ─── labelled lines ───

  /** `label₀value₀⏎label₁value₁⏎…` */
  function Render(labels: seq<string>, values: seq<string>): string
    requires |labels| == |values|
  {
    if labels == [] then [] else labels[0] + values[0] + ['\n'] + Render(labels[1..], values[1..])
  }

  ghost predicate OneLiners(values: seq<string>) {
    forall v :: v in values ==> OneLine(v)
  }

  /** A text whose last line, if any, is closed. */
  predicate EndsLine(s: string) {
    s == [] || s[|s| - 1] == '\n'
  }

  lemma {:induction false} BreakInside(x: string, v: string, y: string, w: string)
    requires EndsLine(y) && |x| < |y| && x + v == y + w
    ensures !OneLine(v)
  {
    assert y[|y| - 1] == (y + w)[|y| - 1] == (x + v)[|y| - 1] == v[|y| - 1 - |x|];
    assert v[|y| - 1 - |x|] in v;
  }

  /** After the last line break, two equal texts agree. */
  lemma {:induction false} LastLine(x: string, v: string, y: string, w: string)
    requires EndsLine(x) && EndsLine(y) && OneLine(v) && OneLine(w) && x + v == y + w
    ensures x == y && v == w
  {
    if |x| < |y| {
      BreakInside(x, v, y, w);
      assert false;
    }
    if |y| < |x| {
      BreakInside(y, w, x, v);
      assert false;
    }
    assert x == (x + v)[..|x|] == (y + w)[..|y|] == y;
    assert v == (x + v)[|x|..] == (y + w)[|y|..] == w;
  }

  lemma {:induction false} RenderLast(labels: seq<string>, values: seq<string>)
    requires |labels| == |values| > 0
    ensures var n := |labels| - 1;
            Render(labels, values) == Render(labels[..n], values[..n]) + (labels[n] + values[n] + ['\n'])
  {
    var n := |labels| - 1;
    assert labels == labels[..n] + [labels[n]] && values == values[..n] + [values[n]];
    RenderSplit(labels[..n], values[..n], [labels[n]], [values[n]]);
    assert Render([labels[n]][1..], [values[n]][1..]) == [];
  }

  lemma {:induction false} RenderEndsLine(labels: seq<string>, values: seq<string>)
    requires |labels| == |values|
    ensures EndsLine(Render(labels, values))
  {
    if labels != [] {
      RenderLast(labels, values);
    }
  }

  lemma {:induction false} EndsLineJoined(x: string, y: string)
    requires EndsLine(x) && EndsLine(y)
    ensures EndsLine(x + y)
  {
  }

  /** With fixed labels, lines at the end of a text determine both their values and what precedes them. */
  lemma {:induction false} RenderInjective(labels: seq<string>, x: string, v: seq<string>, y: string, w: seq<string>)
    requires |labels| == |v| == |w| && OneLiners(labels) && OneLiners(v) && OneLiners(w)
    requires EndsLine(x) && EndsLine(y)
    requires x + Render(labels, v) == y + Render(labels, w)
    ensures x == y && v == w
  {
    if labels == [] {
      assert x + [] == x && y + [] == y;
    } else {
      var n := |labels| - 1;
      var l, l', v', w' := labels[n], labels[..n], v[..n], w[..n];
      assert l in labels && v[n] in v && w[n] in w;
      assert v == v' + [v[n]] && w == w' + [w[n]];
      Fewer(labels, n);
      Fewer(v, n);
      Fewer(w, n);
      hide *;
      RenderLast(labels, v);
      RenderLast(labels, w);
      RenderEndsLine(l', v');
      RenderEndsLine(l', w');
      EndsLineJoined(x, Render(l', v'));
      EndsLineJoined(y, Render(l', w'));
      SameLast(x, Render(l', v'), y, Render(l', w'), l, v[n], w[n]);
      RenderInjective(l', x, v', y, w');
    }
  }

  lemma {:induction false} Fewer(s: seq<string>, n: nat)
    requires OneLiners(s) && n < |s|
    ensures OneLiners(s[..n]) && OneLine(s[n])
  {
    assert forall z :: z in s[..n] ==> z in s;
    assert s[n] in s;
  }

  lemma {:induction false} SameLast(x: string, r: string, y: string, q: string, l: string, v: string, w: string)
    requires OneLine(l) && OneLine(v) && OneLine(w) && EndsLine(x + r) && EndsLine(y + q)
    requires x + (r + (l + v + ['\n'])) == y + (q + (l + w + ['\n']))
    ensures x + r == y + q && v == w
  {
    var s, t := x + (r + (l + v + ['\n'])), y + (q + (l + w + ['\n']));
    assert (x + r) + (l + v) == s[..|s| - 1] == t[..|t| - 1] == (y + q) + (l + w);
    LastLine(x + r, l + v, y + q, l + w);
    assert v == (l + v)[|l|..] == (l + w)[|l|..] == w;
  }

  lemma {:induction false} RenderSplit(l1: seq<string>, v1: seq<string>, l2: seq<string>, v2: seq<string>)
    requires |l1| == |v1| && |l2| == |v2|
    ensures Render(l1 + l2, v1 + v2) == Render(l1, v1) + Render(l2, v2)
  {
    if l1 == [] {
      assert l1 + l2 == l2 && v1 + v2 == v2;
    } else {
      assert (l1 + l2)[1..] == l1[1..] + l2 && (v1 + v2)[1..] == v1[1..] + v2;
      RenderSplit(l1[1..], v1[1..], l2, v2);
    }
  }

  // ─── policies and parameters ───

  datatype Policy = Policy(
    version: string, caprise: string, aes: string, oramEntities: string, oramRelations: string, oramChunks: string,
    emmAdjacency: string, emmSrcChunks: string, searchPattern: string, salt: string)

  datatype Heuristic = Algorithm4 | Simple

  datatype Compass = Compass(
    z: word, s: word, a: word, blockBytes: word, hnswM: word, hnswEf: word, hnswEfSpec: word, hnswEfN: word,
    treetopLevels: word, hintBits: byte, mL0: word, mUpper: word, efConstruction: word, mlBits: word,
    heuristic: Heuristic, buildSeed: seq<byte>)

  datatype LightRag = LightRag(topK: word, chunkTopK: word, maxEntity: word, maxRelation: word, maxTotal: word,
                               epsilonBits: word)

  datatype Params = Params(scaleBits: word, betaBits: word, compass: Compass, volumeBound: word, stashSize: word,
                           lightrag: LightRag)

  function PolicyLabels(): (r: seq<string>)
    ensures |r| == 10
  {
    ["", "kdf=hkdf-sha256\nkdf-info-caprise=", "kdf-info-aes=", "kdf-info-oram-entities=", "kdf-info-oram-relations=",
     "kdf-info-oram-chunks=", "kdf-info-emm-adjacency=", "kdf-info-emm-src-chunks=", "kdf-info-search-pattern=",
     "kdf-salt="]
  }

  function PolicyValues(p: Policy): (r: seq<string>)
    ensures |r| == 10
  {
    [p.version, p.caprise, p.aes, p.oramEntities, p.oramRelations, p.oramChunks, p.emmAdjacency, p.emmSrcChunks,
     p.searchPattern, p.salt]
  }

  function HeuristicName(h: Heuristic): string {
    match h
    case Algorithm4 => "algorithm4"
    case Simple => "simple"
  }

  function CompassLabels(): (r: seq<string>)
    ensures |r| == 16
  {
    ["compass-z=", "compass-s=", "compass-a=", "compass-block-bytes=", "compass-hnsw-m=", "compass-hnsw-ef=",
     "compass-hnsw-ef-spec=", "compass-hnsw-ef-n=", "compass-treetop-levels=", "compass-hint-bits=",
     "compass-hnsw-m-l0=", "compass-hnsw-m-upper=", "compass-hnsw-ef-construction=", "compass-hnsw-ml-bits=0x",
     "compass-hnsw-neighbour-heuristic=", "compass-hnsw-build-seed="]
  }

  function CompassValues(c: Compass): (r: seq<string>)
    ensures |r| == 16
  {
    [Decimal(c.z), Decimal(c.s), Decimal(c.a), Decimal(c.blockBytes), Decimal(c.hnswM), Decimal(c.hnswEf),
     Decimal(c.hnswEfSpec), Decimal(c.hnswEfN), Decimal(c.treetopLevels), Decimal(c.hintBits), Decimal(c.mL0),
     Decimal(c.mUpper), Decimal(c.efConstruction), Bits(c.mlBits), HeuristicName(c.heuristic), Seed(c.buildSeed)]
  }

  function OtherLabels(): (r: seq<string>)
    ensures |r| == 10
  {
    ["caprise-scale-bits=0x", "caprise-beta-bits=0x", "xormm-volume-bound=", "xormm-stash-size=", "lightrag-top-k=",
     "lightrag-chunk-top-k=", "lightrag-max-entity-tokens=", "lightrag-max-relation-tokens=",
     "lightrag-max-total-tokens=", "lightrag-search-eps-bits=0x"]
  }

  function OtherValues(p: Params): (r: seq<string>)
    ensures |r| == 10
  {
    [Bits(p.scaleBits), Bits(p.betaBits), Decimal(p.volumeBound), Decimal(p.stashSize), Decimal(p.lightrag.topK),
     Decimal(p.lightrag.chunkTopK), Decimal(p.lightrag.maxEntity), Decimal(p.lightrag.maxRelation),
     Decimal(p.lightrag.maxTotal), Bits(p.lightrag.epsilonBits)]
  }

  /** Parameter lines in document order: the two CAPRISE constants, the Compass block, the rest. */
  function ParamLabels(): (r: seq<string>)
    ensures |r| == 26
  {
    OtherLabels()[..2] + CompassLabels() + OtherLabels()[2..]
  }

  function ParamValues(p: Params): (r: seq<string>)
    ensures |r| == 26
  {
    OtherValues(p)[..2] + CompassValues(p.compass) + OtherValues(p)[2..]
  }

  function Fragment(policy: Policy, params: Params): string {
    Render(PolicyLabels() + ParamLabels(), PolicyValues(policy) + ParamValues(params))
  }

  /** Appends one labelled line after another. */
  method AppendLines(prefix: string, labels: seq<string>, values: seq<string>) returns (out: string)
    requires |labels| == |values|
    ensures out == prefix + Render(labels, values)
  {
    out := prefix;
    for i := 0 to |labels|
      invariant out + Render(labels[i..], values[i..]) == prefix + Render(labels, values)
    {
      assert labels[i..][0] == labels[i] && labels[i..][1..] == labels[i + 1..];
      assert values[i..][0] == values[i] && values[i..][1..] == values[i + 1..];
      out := out + labels[i] + values[i] + ['\n'];
    }
  }

  /** The fragment, appended section by section. */
  method SchemeIdentityFragment(policy: Policy, params: Params) returns (out: string)
    ensures out == Fragment(policy, params)
  {
    hide *;
    var ol, ov := OtherLabels(), OtherValues(params);
    out := AppendLines([], PolicyLabels(), PolicyValues(policy));
    out := AppendLines(out, ol[..2], ov[..2]);
    out := AppendLines(out, CompassLabels(), CompassValues(params.compass));
    out := AppendLines(out, ol[2..], ov[2..]);
    FragmentSections(policy, params);
    assert [] + Render(PolicyLabels(), PolicyValues(policy)) == Render(PolicyLabels(), PolicyValues(policy));
  }

  lemma {:induction false} FragmentSections(policy: Policy, params: Params)
    ensures Fragment(policy, params)
         == Render(PolicyLabels(), PolicyValues(policy)) + Render(OtherLabels()[..2], OtherValues(params)[..2])
            + Render(CompassLabels(), CompassValues(params.compass))
            + Render(OtherLabels()[2..], OtherValues(params)[2..])
  {
    var pv, ov, cv := PolicyValues(policy), OtherValues(params), CompassValues(params.compass);
    var pl, ol, cl := PolicyLabels(), OtherLabels(), CompassLabels();
    hide Render, PolicyValues, OtherValues, CompassValues, PolicyLabels, OtherLabels, CompassLabels;
    RenderSplit(ol[..2], ov[..2], cl, cv);
    RenderSplit(ol[..2] + cl, ov[..2] + cv, ol[2..], ov[2..]);
    RenderSplit(pl, pv, ParamLabels(), ParamValues(params));
  }

  // ─── the document written out ───

  /** Lines one after another, each ended by a line break. */
  function Lines(lines: seq<string>): string {
    if lines == [] then [] else lines[0] + ['\n'] + Lines(lines[1..])
  }

  lemma {:induction false} RenderLines(labels: seq<string>, values: seq<string>, lines: seq<string>)
    requires |labels| == |values| == |lines|
    requires forall i :: 0 <= i < |lines| ==> lines[i] == labels[i] + values[i]
    ensures Render(labels, values) == Lines(lines)
    decreases |lines|
  {
    if lines != [] {
      var rest := lines[1..];
      assert forall i :: 0 <= i < |rest| ==> rest[i] == labels[1..][i] + values[1..][i];
      RenderLines(labels[1..], values[1..], rest);
    }
  }

  lemma {:induction false} PolicyLines(p: Policy)
    ensures Render(PolicyLabels(), PolicyValues(p)) == Lines(
      [p.version, "kdf=hkdf-sha256\nkdf-info-caprise=" + p.caprise, "kdf-info-aes=" + p.aes,
       "kdf-info-oram-entities=" + p.oramEntities, "kdf-info-oram-relations=" + p.oramRelations,
       "kdf-info-oram-chunks=" + p.oramChunks, "kdf-info-emm-adjacency=" + p.emmAdjacency,
       "kdf-info-emm-src-chunks=" + p.emmSrcChunks, "kdf-info-search-pattern=" + p.searchPattern,
       "kdf-salt=" + p.salt])
  {
    var lines :=
      [p.version, "kdf=hkdf-sha256\nkdf-info-caprise=" + p.caprise, "kdf-info-aes=" + p.aes,
       "kdf-info-oram-entities=" + p.oramEntities, "kdf-info-oram-relations=" + p.oramRelations,
       "kdf-info-oram-chunks=" + p.oramChunks, "kdf-info-emm-adjacency=" + p.emmAdjacency,
       "kdf-info-emm-src-chunks=" + p.emmSrcChunks, "kdf-info-search-pattern=" + p.searchPattern,
       "kdf-salt=" + p.salt];
    assert "" + p.version == p.version;
    RenderLines(PolicyLabels(), PolicyValues(p), lines);
  }

  lemma {:induction false} CompassLines(c: Compass)
    ensures Render(CompassLabels(), CompassValues(c)) == Lines(
      ["compass-z=" + Decimal(c.z), "compass-s=" + Decimal(c.s), "compass-a=" + Decimal(c.a),
       "compass-block-bytes=" + Decimal(c.blockBytes), "compass-hnsw-m=" + Decimal(c.hnswM),
       "compass-hnsw-ef=" + Decimal(c.hnswEf), "compass-hnsw-ef-spec=" + Decimal(c.hnswEfSpec),
       "compass-hnsw-ef-n=" + Decimal(c.hnswEfN), "compass-treetop-levels=" + Decimal(c.treetopLevels),
       "compass-hint-bits=" + Decimal(c.hintBits), "compass-hnsw-m-l0=" + Decimal(c.mL0),
       "compass-hnsw-m-upper=" + Decimal(c.mUpper), "compass-hnsw-ef-construction=" + Decimal(c.efConstruction),
       "compass-hnsw-ml-bits=0x" + Bits(c.mlBits),
       "compass-hnsw-neighbour-heuristic=" + if c.heuristic == Simple then "simple" else "algorithm4",
       "compass-hnsw-build-seed=" + Seed(c.buildSeed)])
  {
    hide Decimal, Bits, Seed;
    var lines :=
      ["compass-z=" + Decimal(c.z), "compass-s=" + Decimal(c.s), "compass-a=" + Decimal(c.a),
       "compass-block-bytes=" + Decimal(c.blockBytes), "compass-hnsw-m=" + Decimal(c.hnswM),
       "compass-hnsw-ef=" + Decimal(c.hnswEf), "compass-hnsw-ef-spec=" + Decimal(c.hnswEfSpec),
       "compass-hnsw-ef-n=" + Decimal(c.hnswEfN), "compass-treetop-levels=" + Decimal(c.treetopLevels),
       "compass-hint-bits=" + Decimal(c.hintBits), "compass-hnsw-m-l0=" + Decimal(c.mL0),
       "compass-hnsw-m-upper=" + Decimal(c.mUpper), "compass-hnsw-ef-construction=" + Decimal(c.efConstruction),
       "compass-hnsw-ml-bits=0x" + Bits(c.mlBits),
       "compass-hnsw-neighbour-heuristic=" + if c.heuristic == Simple then "simple" else "algorithm4",
       "compass-hnsw-build-seed=" + Seed(c.buildSeed)];
    RenderLines(CompassLabels(), CompassValues(c), lines);
  }

  lemma {:induction false} CapriseLines(p: Params)
    ensures Render(OtherLabels()[..2], OtherValues(p)[..2]) == Lines(
      ["caprise-scale-bits=0x" + Bits(p.scaleBits), "caprise-beta-bits=0x" + Bits(p.betaBits)])
  {
    hide Decimal, Bits;
    var lines := ["caprise-scale-bits=0x" + Bits(p.scaleBits), "caprise-beta-bits=0x" + Bits(p.betaBits)];
    RenderLines(OtherLabels()[..2], OtherValues(p)[..2], lines);
  }

  lemma {:induction false} RetrievalLines(p: Params)
    ensures Render(OtherLabels()[2..], OtherValues(p)[2..]) == Lines(
      ["xormm-volume-bound=" + Decimal(p.volumeBound), "xormm-stash-size=" + Decimal(p.stashSize),
       "lightrag-top-k=" + Decimal(p.lightrag.topK), "lightrag-chunk-top-k=" + Decimal(p.lightrag.chunkTopK),
       "lightrag-max-entity-tokens=" + Decimal(p.lightrag.maxEntity),
       "lightrag-max-relation-tokens=" + Decimal(p.lightrag.maxRelation),
       "lightrag-max-total-tokens=" + Decimal(p.lightrag.maxTotal),
       "lightrag-search-eps-bits=0x" + Bits(p.lightrag.epsilonBits)])
  {
    hide Decimal, Bits;
    var lines :=
      ["xormm-volume-bound=" + Decimal(p.volumeBound), "xormm-stash-size=" + Decimal(p.stashSize),
       "lightrag-top-k=" + Decimal(p.lightrag.topK), "lightrag-chunk-top-k=" + Decimal(p.lightrag.chunkTopK),
       "lightrag-max-entity-tokens=" + Decimal(p.lightrag.maxEntity),
       "lightrag-max-relation-tokens=" + Decimal(p.lightrag.maxRelation),
       "lightrag-max-total-tokens=" + Decimal(p.lightrag.maxTotal),
       "lightrag-search-eps-bits=0x" + Bits(p.lightrag.epsilonBits)];
    RenderLines(OtherLabels()[2..], OtherValues(p)[2..], lines);
  }

  /** The whole fragment, line by line, every label with the value that follows it. */
  lemma {:induction false} FragmentText(policy: Policy, params: Params)
    ensures var p, c, l := policy, params.compass, params.lightrag;
            Fragment(policy, params) ==
              Lines([p.version, "kdf=hkdf-sha256\nkdf-info-caprise=" + p.caprise, "kdf-info-aes=" + p.aes,
                     "kdf-info-oram-entities=" + p.oramEntities, "kdf-info-oram-relations=" + p.oramRelations,
                     "kdf-info-oram-chunks=" + p.oramChunks, "kdf-info-emm-adjacency=" + p.emmAdjacency,
                     "kdf-info-emm-src-chunks=" + p.emmSrcChunks, "kdf-info-search-pattern=" + p.searchPattern,
                     "kdf-salt=" + p.salt])
              + Lines(["caprise-scale-bits=0x" + Bits(params.scaleBits),
                       "caprise-beta-bits=0x" + Bits(params.betaBits)])
              + Lines(["compass-z=" + Decimal(c.z), "compass-s=" + Decimal(c.s), "compass-a=" + Decimal(c.a),
                       "compass-block-bytes=" + Decimal(c.blockBytes), "compass-hnsw-m=" + Decimal(c.hnswM),
                       "compass-hnsw-ef=" + Decimal(c.hnswEf), "compass-hnsw-ef-spec=" + Decimal(c.hnswEfSpec),
                       "compass-hnsw-ef-n=" + Decimal(c.hnswEfN), "compass-treetop-levels=" + Decimal(c.treetopLevels),
                       "compass-hint-bits=" + Decimal(c.hintBits), "compass-hnsw-m-l0=" + Decimal(c.mL0),
                       "compass-hnsw-m-upper=" + Decimal(c.mUpper),
                       "compass-hnsw-ef-construction=" + Decimal(c.efConstruction),
                       "compass-hnsw-ml-bits=0x" + Bits(c.mlBits),
                       "compass-hnsw-neighbour-heuristic=" + if c.heuristic == Simple then "simple" else "algorithm4",
                       "compass-hnsw-build-seed=" + Seed(c.buildSeed)])
              + Lines(["xormm-volume-bound=" + Decimal(params.volumeBound),
                       "xormm-stash-size=" + Decimal(params.stashSize),
                       "lightrag-top-k=" + Decimal(l.topK), "lightrag-chunk-top-k=" + Decimal(l.chunkTopK),
                       "lightrag-max-entity-tokens=" + Decimal(l.maxEntity),
                       "lightrag-max-relation-tokens=" + Decimal(l.maxRelation),
                       "lightrag-max-total-tokens=" + Decimal(l.maxTotal),
                       "lightrag-search-eps-bits=0x" + Bits(l.epsilonBits)])
  {
    hide *;
    FragmentSections(policy, params);
    PolicyLines(policy);
    CapriseLines(params);
    CompassLines(params.compass);
    RetrievalLines(params);
  }

  /** The characters that stand for the digits: `0` to `9`, then lower-case `a` to `f`. */
  lemma {:induction false} DigitsAre(d: nat)
    requires d < 16
    ensures Digit(d) as int == if d < 10 then 48 + d else 87 + d
  {
  }

  lemma {:induction false} LastDigit(n: nat)
    ensures n >= 10 ==> Decimal(n) == Decimal(n / 10) + [Digit(n % 10)]
    ensures n < 10 ==> Decimal(n) == [Digit(n)]
  {
  }

  lemma {:induction false} LastHexDigit(w: nat, k: nat)
    requires k > 0
    ensures Hex(w, k) == Hex(w / 16, k - 1) + [Digit(w % 16)]
    ensures Hex(w, 0) == []
  {
  }

  /** A number is written to base ten, most significant digit first and without leading zeros. */
  lemma {:induction false} DecimalIs(n: nat)
    ensures n > 0 ==> Decimal(n)[0] != '0'
    ensures Decimal(1024) == "1024"
  {
    LeadingDigit(n);
    LastDigit(1024);
    LastDigit(102);
    LastDigit(10);
    LastDigit(1);
    hide Decimal;
    assert Decimal(10) == "10" && Decimal(102) == "102";
  }

  /** A bit pattern is written to base sixteen in eight places, a seed in two places a byte. */
  lemma {:induction false} HexIs(w: word)
    ensures |Bits(w)| == 8
    ensures Bits(0x3F80_00AB) == "3f8000ab"
    ensures Seed([7, 255]) == "07ff"
  {
    hide Hex, Seed, Digit;
    SeedIs();
    UpperHalf();
    LastHexDigit(0x3_F800, 5);
    LastHexDigit(0x3F_8000, 6);
    LastHexDigit(0x3F8_000A, 7);
    LastHexDigit(0x3F80_00AB, 8);
    SomeDigits();
  }

  lemma {:induction false} SomeDigits()
    ensures Digit(0) == '0' && Digit(3) == '3' && Digit(7) == '7' && Digit(8) == '8'
    ensures Digit(10) == 'a' && Digit(11) == 'b' && Digit(15) == 'f'
  {
  }

  lemma {:induction false} UpperHalf()
    ensures Hex(0x3F80, 4) == "3f80"
  {
    hide Hex, Digit;
    LastHexDigit(3, 1);
    LastHexDigit(0x3F, 2);
    LastHexDigit(0x3F8, 3);
    LastHexDigit(0x3F80, 4);
    SomeDigits();
  }

  lemma {:induction false} SeedIs()
    ensures Seed([7, 255]) == "07ff"
  {
    hide Hex, Digit;
    LastHexDigit(7, 2);
    LastHexDigit(0, 1);
    LastHexDigit(255, 2);
    LastHexDigit(15, 1);
    SomeDigits();
    assert Hex(7, 2) == "07" && Hex(255, 2) == "ff";
    assert [7, 255][1..] == [255] && [255][1..] == [];
    assert Seed([255]) == Hex(255, 2) + Seed([]);
  }

  lemma {:induction false} LeadingDigit(n: nat)
    ensures n > 0 ==> Decimal(n)[0] != '0'
  {
    if n >= 10 {
      LeadingDigit(n / 10);
    }
  }

  // ─── injectivity ───

  lemma {:induction false} CompassValuesInjective(a: Compass, b: Compass)
    requires CompassValues(a) == CompassValues(b)
    ensures a == b
  {
    var v, w := CompassValues(a), CompassValues(b);
    hide Decimal, Bits, Seed, HeuristicName;
    assert forall i :: 0 <= i < 16 ==> v[i] == w[i];
    DecimalInjective(a.z, b.z);
    DecimalInjective(a.s, b.s);
    DecimalInjective(a.a, b.a);
    DecimalInjective(a.blockBytes, b.blockBytes);
    DecimalInjective(a.hnswM, b.hnswM);
    DecimalInjective(a.hnswEf, b.hnswEf);
    DecimalInjective(a.hnswEfSpec, b.hnswEfSpec);
    DecimalInjective(a.hnswEfN, b.hnswEfN);
    DecimalInjective(a.treetopLevels, b.treetopLevels);
    DecimalInjective(a.hintBits, b.hintBits);
    DecimalInjective(a.mL0, b.mL0);
    DecimalInjective(a.mUpper, b.mUpper);
    DecimalInjective(a.efConstruction, b.efConstruction);
    BitsInjective(a.mlBits, b.mlBits);
    HeuristicInjective(a.heuristic, b.heuristic);
    SeedInjective(a.buildSeed, b.buildSeed);
  }

  lemma {:induction false} HeuristicInjective(a: Heuristic, b: Heuristic)
    requires HeuristicName(a) == HeuristicName(b)
    ensures a == b
  {
    assert |HeuristicName(Algorithm4)| == 10 && |HeuristicName(Simple)| == 6;
  }

  lemma {:induction false} OtherValuesInjective(a: Params, b: Params)
    requires OtherValues(a) == OtherValues(b)
    ensures a.(compass := b.compass) == b
  {
    var v, w := OtherValues(a), OtherValues(b);
    hide Decimal, Bits;
    assert forall i :: 0 <= i < 10 ==> v[i] == w[i];
    BitsInjective(a.scaleBits, b.scaleBits);
    BitsInjective(a.betaBits, b.betaBits);
    DecimalInjective(a.volumeBound, b.volumeBound);
    DecimalInjective(a.stashSize, b.stashSize);
    DecimalInjective(a.lightrag.topK, b.lightrag.topK);
    DecimalInjective(a.lightrag.chunkTopK, b.lightrag.chunkTopK);
    DecimalInjective(a.lightrag.maxEntity, b.lightrag.maxEntity);
    DecimalInjective(a.lightrag.maxRelation, b.lightrag.maxRelation);
    DecimalInjective(a.lightrag.maxTotal, b.lightrag.maxTotal);
    BitsInjective(a.lightrag.epsilonBits, b.lightrag.epsilonBits);
  }

  lemma {:induction false} ParamValuesInjective(a: Params, b: Params)
    requires ParamValues(a) == ParamValues(b)
    ensures a == b
  {
    var v, w := ParamValues(a), ParamValues(b);
    hide OtherValues, CompassValues;
    ValueCounts(a);
    ValueCounts(b);
    assert OtherValues(a)[..2] == v[..2] == w[..2] == OtherValues(b)[..2];
    assert CompassValues(a.compass) == v[2..18] == w[2..18] == CompassValues(b.compass);
    assert OtherValues(a)[2..] == v[18..] == w[18..] == OtherValues(b)[2..];
    assert OtherValues(a) == OtherValues(a)[..2] + OtherValues(a)[2..];
    assert OtherValues(b) == OtherValues(b)[..2] + OtherValues(b)[2..];
    CompassValuesInjective(a.compass, b.compass);
    OtherValuesInjective(a, b);
  }

  lemma {:induction false} ValueCounts(p: Params)
    ensures |OtherValues(p)| == 10 && |CompassValues(p.compass)| == 16
  {
  }

  lemma {:induction false} ParamOneLiners(p: Params)
    ensures OneLiners(ParamValues(p))
  {
    hide Decimal, Bits, Seed;
    assert OneLine(HeuristicName(p.compass.heuristic));
  }

  lemma {:induction false} ParamLabelsOneLiners()
    ensures OneLiners(ParamLabels())
  {
    OtherLabelsOneLiners();
    CompassLabelsOneLiners();
    hide OtherLabels, CompassLabels, OneLine;
  }

  lemma {:induction false} OtherLabelsOneLiners()
    ensures OneLiners(OtherLabels())
  {
    var l := OtherLabels();
    assert forall i :: 0 <= i < |l| ==> OneLine(l[i]);
  }

  lemma {:induction false} CompassLabelsOneLiners()
    ensures OneLiners(CompassLabels())
  {
    var l := CompassLabels();
    assert forall i :: 0 <= i < |l| ==> OneLine(l[i]);
  }

  /** Whatever the policies and their strings, equal fragments come from equal parameters. */
  lemma {:induction false} ParamsInjective(p: Policy, a: Params, q: Policy, b: Params)
    requires Fragment(p, a) == Fragment(q, b)
    ensures a == b && Render(PolicyLabels(), PolicyValues(p)) == Render(PolicyLabels(), PolicyValues(q))
  {
    var pl, l := PolicyLabels(), ParamLabels();
    ParamOneLiners(a);
    ParamOneLiners(b);
    ParamLabelsOneLiners();
    hide Render, ParamValues, PolicyValues, PolicyLabels, ParamLabels, OneLiners;
    RenderSplit(pl, PolicyValues(p), l, ParamValues(a));
    RenderSplit(pl, PolicyValues(q), l, ParamValues(b));
    RenderEndsLine(pl, PolicyValues(p));
    RenderEndsLine(pl, PolicyValues(q));
    RenderInjective(l, Render(pl, PolicyValues(p)), ParamValues(a), Render(pl, PolicyValues(q)), ParamValues(b));
    ParamValuesInjective(a, b);
  }

  // ─── texts cut at separators ───

  /** `value₀ sep₀ value₁ sep₁ … valueₙ` */
  function Joined(seps: seq<string>, values: seq<string>): string
    requires |values| == |seps| + 1
  {
    if seps == [] then values[0] else values[0] + seps[0] + Joined(seps[1..], values[1..])
  }

  ghost predicate Occurs(s: string, t: string) {
    exists i: nat :: OccursAt(s, t, i)
  }

  predicate OccursAt(s: string, t: string, i: nat) {
    i + |s| <= |t| && t[i..i + |s|] == s
  }

  /** No proper end of `s` is also a beginning: two copies of `s` never overlap. */
  ghost predicate Borderless(s: string) {
    forall k :: 0 < k < |s| ==> s[k..] != s[..|s| - k]
  }

  /** Some separator has a second copy in a value next to it. */
  ghost predicate Ambiguous(seps: seq<string>, values: seq<string>)
    requires |values| == |seps| + 1
  {
    exists j: nat :: j < |seps| && Echoed(seps, values, j)
  }

  ghost predicate Echoed(seps: seq<string>, values: seq<string>, j: nat)
    requires |values| == |seps| + 1 && j < |seps|
  {
    Occurs(seps[j], values[j]) || Occurs(seps[j], values[j + 1])
  }

  lemma {:induction false} OccursIn(x: string, s: string, y: string)
    ensures Occurs(s, x + s + y)
  {
    assert OccursAt(s, x + s + y, |x|);
  }

  lemma {:induction false} AmbiguousTail(seps: seq<string>, values: seq<string>)
    requires |values| == |seps| + 1 && seps != [] && Ambiguous(seps[1..], values[1..])
    ensures Ambiguous(seps, values)
  {
    var j: nat :| j < |seps[1..]| && Echoed(seps[1..], values[1..], j);
    assert Echoed(seps, values, j + 1);
  }

  lemma {:induction false} Overlap(v: string, w: string, s: string, x: string, y: string)
    requires v + s + x == w + s + y && |v| < |w| < |v| + |s|
    ensures var k := |w| - |v|; s[k..] == s[..|s| - k]
  {
    var t, k := v + s + x, |w| - |v|;
    assert s[k..] == t[|w|..|v| + |s|] == (w + s + y)[|w|..|v| + |s|] == s[..|s| - k];
  }

  /** Two texts begin with a value and the same separator: the separators start at one place, or the one
      that starts first lies wholly inside the other's value. */
  lemma {:induction false} FirstCut(v: string, w: string, s: string, x: string, y: string)
    requires Borderless(s) && v + s + x == w + s + y && |v| < |w|
    ensures |v| + |s| <= |w| && w == v + s + w[|v| + |s|..] && x == w[|v| + |s|..] + s + y
  {
    var t, k := v + s + x, |w| - |v|;
    if k < |s| {
      Overlap(v, w, s, x, y);
      assert false;
    }
    assert v == t[..|v|] == (w + s + y)[..|v|] == w[..|v|];
    assert s == t[|v|..|v| + |s|] == (w + s + y)[|v|..|v| + |s|] == w[|v|..|v| + |s|];
    assert x == t[|v| + |s|..] == (w + s + y)[|v| + |s|..];
  }

  lemma {:induction false} OneValue(v: seq<string>)
    requires |v| == 1
    ensures v == [Joined([], v)]
  {
  }

  /** A text with two different cuts has an ambiguous one, whichever of the two is looked at. */
  lemma {:induction false} TwoCuts(seps: seq<string>, v: seq<string>, w: seq<string>)
    requires |v| == |w| == |seps| + 1 && v != w && Joined(seps, v) == Joined(seps, w)
    requires forall s :: s in seps ==> Borderless(s)
    ensures Ambiguous(seps, v)
    decreases |seps|
  {
    if seps == [] {
      OneValue(v);
      OneValue(w);
      assert false;
    } else {
      var s, rest := seps[0], seps[1..];
      var x, y := Joined(rest, v[1..]), Joined(rest, w[1..]);
      assert s in seps && forall z :: z in rest ==> z in seps;
      assert v == [v[0]] + v[1..] && w == [w[0]] + w[1..];
      hide Joined, Borderless, Occurs, Ambiguous;
      if |w[0]| < |v[0]| {
        FirstCut(w[0], v[0], s, y, x);
        OccursIn(w[0], s, v[0][|w[0]| + |s|..]);
        EchoedFirst(seps, v);
      } else if |w[0]| == |v[0]| {
        SameFirst(v[0], w[0], s, x, y);
        TwoCuts(rest, v[1..], w[1..]);
        AmbiguousTail(seps, v);
      } else {
        FirstCut(v[0], w[0], s, x, y);
        LaterCut(seps, v, w, w[0][|v[0]| + |s|..]);
      }
    }
  }

  lemma {:induction false} EchoedFirst(seps: seq<string>, v: seq<string>)
    requires |v| == |seps| + 1 && seps != [] && (Occurs(seps[0], v[0]) || Occurs(seps[0], v[1]))
    ensures Ambiguous(seps, v)
  {
    assert Echoed(seps, v, 0);
  }

  lemma {:induction false} SameFirst(v: string, w: string, s: string, x: string, y: string)
    requires v + s + x == w + s + y && |v| == |w|
    ensures v == w && x == y
  {
    assert v == (v + s + x)[..|v|] == (w + s + y)[..|v|] == w;
    assert x == (v + s + x)[|v| + |s|..] == (w + s + y)[|v| + |s|..] == y;
  }

  /** The other cut puts the first separator later: what it skips goes to the front of its next value. */
  lemma {:induction false} LaterCut(seps: seq<string>, v: seq<string>, w: seq<string>, z: string)
    requires |v| == |w| == |seps| + 1 && seps != []
    requires forall s :: s in seps ==> Borderless(s)
    requires Joined(seps[1..], v[1..]) == z + seps[0] + Joined(seps[1..], w[1..])
    ensures Ambiguous(seps, v)
    decreases |seps|, 0
  {
    var s, rest := seps[0], seps[1..];
    var moved := [z + s + w[1]] + w[2..];
    assert forall z' :: z' in rest ==> z' in seps;
    FirstGrown(rest, w[1..], z + s);
    assert moved == [(z + s) + w[1..][0]] + w[1..][1..];
    if moved == v[1..] {
      assert v[1] == v[1..][0] == z + s + w[1];
      OccursIn(z, s, w[1]);
      EchoedFirst(seps, v);
    } else {
      TwoCuts(rest, v[1..], moved);
      AmbiguousTail(seps, v);
    }
  }

  lemma {:induction false} FirstGrown(seps: seq<string>, w: seq<string>, z: string)
    requires |w| == |seps| + 1
    ensures Joined(seps, [z + w[0]] + w[1..]) == z + Joined(seps, w)
  {
    var grown := [z + w[0]] + w[1..];
    assert grown[1..] == w[1..];
  }

  /** A second copy of a separator beside it is another place to cut. */
  lemma {:induction false} OtherCut(seps: seq<string>, v: seq<string>, j: nat) returns (w: seq<string>)
    requires |v| == |seps| + 1 && j < |seps| && Echoed(seps, v, j) && seps[j] != []
    ensures |w| == |v| && w != v && Joined(seps, w) == Joined(seps, v)
    decreases j
  {
    var s, rest := seps[0], seps[1..];
    if j > 0 {
      assert Echoed(rest, v[1..], j - 1);
      var w' := OtherCut(rest, v[1..], j - 1);
      w := [v[0]] + w';
      assert w[1..] == w';
    } else {
      hide Joined;
      var tail := v[2..];
      assert v[1..] == [v[1]] + tail && v == [v[0], v[1]] + tail;
      if Occurs(s, v[0]) {
        var i: nat :| OccursAt(s, v[0], i);
        var x, y := v[0][..i], v[0][i + |s|..];
        assert v[0] == x + s + y;
        w := [x, y + s + v[1]] + tail;
        JoinedTwo(seps, v, tail);
        JoinedTwo(seps, w, tail);
        FirstGrown(rest, v[1..], y + s);
        assert w[1..] == [(y + s) + v[1..][0]] + v[1..][1..];
        assert |w[0]| < |v[0]|;
        CutEarly(x, s, y, Joined(rest, v[1..]));
      } else {
        var i: nat :| OccursAt(s, v[1], i);
        var x, y := v[1][..i], v[1][i + |s|..];
        assert v[1] == x + s + y;
        w := [v[0] + s + x, y] + tail;
        JoinedTwo(seps, v, tail);
        JoinedTwo(seps, w, tail);
        FirstGrown(rest, w[1..], x + s);
        assert v[1..] == [(x + s) + w[1..][0]] + w[1..][1..];
        assert |w[0]| > |v[0]|;
        CutLate(v[0], s, x, Joined(rest, w[1..]));
      }
    }
  }

  lemma {:induction false} JoinedTwo(seps: seq<string>, v: seq<string>, tail: seq<string>)
    requires seps != [] && |v| == |seps| + 1 && v[2..] == tail
    ensures Joined(seps, v) == v[0] + seps[0] + Joined(seps[1..], v[1..])
  {
  }

  lemma {:induction false} CutEarly(x: string, s: string, y: string, r: string)
    ensures (x + s + y) + s + r == x + s + ((y + s) + r)
  {
  }

  lemma {:induction false} CutLate(v: string, s: string, x: string, r: string)
    ensures v + s + ((x + s) + r) == (v + s + x) + s + r
  {
  }

  // ─── when a fragment determines its policy ───

  /** What stands between one policy value and the next: a line break and the next label. */
  function Separators(labels: seq<string>): (r: seq<string>)
    requires labels != []
    ensures |r| == |labels| - 1 && forall i {:trigger r[i]} | 0 <= i < |r| :: r[i] == ['\n'] + labels[i + 1]
  {
    seq(|labels| - 1, i requires 0 <= i < |labels| - 1 => ['\n'] + labels[i + 1])
  }

  lemma {:induction false} RenderIsJoined(labels: seq<string>, values: seq<string>)
    requires |labels| == |values| > 0
    ensures Render(labels, values) == labels[0] + Joined(Separators(labels), values) + ['\n']
  {
    if |labels| == 1 {
      assert labels[1..] == [] && Separators(labels) == [];
    } else {
      var seps := Separators(labels);
      RenderIsJoined(labels[1..], values[1..]);
      assert seps[1..] == Separators(labels[1..]);
      Regrouped(labels[0], values[0], labels[1], Joined(seps[1..], values[1..]));
    }
  }

  lemma {:induction false} Regrouped(l: string, v: string, m: string, j: string)
    ensures l + v + ['\n'] + (m + j + ['\n']) == l + (v + (['\n'] + m) + j) + ['\n']
  {
  }

  ghost predicate Confusable(p: Policy) {
    Ambiguous(Separators(PolicyLabels()), PolicyValues(p))
  }

  /** No other policy, with any parameters, has the fragment of `p` with `a`. */
  ghost predicate Determined(p: Policy, a: Params) {
    forall q, b {:trigger Fragment(q, b)} :: Fragment(q, b) == Fragment(p, a) ==> q == p && b == a
  }

  lemma {:induction false} LineSeparator(name: string)
    requires OneLine(name)
    ensures Borderless(['\n'] + name)
  {
    var s := ['\n'] + name;
    forall k | 0 < k < |s|
      ensures s[k..] != s[..|s| - k]
    {
      assert s[k] == name[k - 1] && name[k - 1] in name;
      assert s[k..][0] == s[k] && s[..|s| - k][0] == '\n';
    }
  }

  /** Two lines whose fourth characters differ. */
  lemma {:induction false} TwoLineSeparator(m: string, n: string)
    requires OneLine(m) && OneLine(n) && |m| > 3 && |n| > 3 && m[3] != n[3]
    ensures Borderless(['\n'] + m + ['\n'] + n)
  {
    var s := ['\n'] + m + ['\n'] + n;
    forall k | 0 < k < |s|
      ensures s[k..] != s[..|s| - k]
    {
      assert s[k..][0] == s[k] && s[..|s| - k][0] == '\n';
      if k == |m| + 1 {
        assert s[k..][4] == s[k + 4] == n[3] && s[..|s| - k][4] == s[4] == m[3];
      } else if k <= |m| {
        assert s[k] == m[k - 1] && m[k - 1] in m;
      } else {
        assert s[k] == n[k - |m| - 2] && n[k - |m| - 2] in n;
      }
    }
  }

  lemma {:induction false} LaterLabels()
    ensures forall i {:trigger PolicyLabels()[i]} | 2 <= i < 10 :: OneLine(PolicyLabels()[i])
  {
    assert OneLine("kdf-info-aes=") && OneLine("kdf-info-oram-entities=") && OneLine("kdf-info-oram-relations=");
    assert OneLine("kdf-info-oram-chunks=");
    LastLabels();
    hide OneLine;
  }

  lemma {:induction false} LastLabels()
    ensures OneLine("kdf-info-emm-adjacency=") && OneLine("kdf-info-emm-src-chunks=")
    ensures OneLine("kdf-info-search-pattern=") && OneLine("kdf-salt=")
  {
  }

  lemma {:induction false} FirstLabel()
    ensures ['\n'] + PolicyLabels()[1] == ['\n'] + "kdf=hkdf-sha256" + ['\n'] + "kdf-info-caprise="
    ensures OneLine("kdf=hkdf-sha256") && OneLine("kdf-info-caprise=")
  {
  }

  /** No policy separator overlaps itself: only the first has two lines, and they begin differently. */
  lemma {:induction false} PolicySeparatorsBorderless()
    ensures forall s :: s in Separators(PolicyLabels()) ==> Borderless(s) && s != []
  {
    var l, r := PolicyLabels(), Separators(PolicyLabels());
    LaterLabels();
    FirstLabel();
    TwoLineSeparator("kdf=hkdf-sha256", "kdf-info-caprise=");
    hide OneLine, Borderless, PolicyLabels;
    forall s | s in r
      ensures Borderless(s) && s != []
    {
      var i :| 0 <= i < |r| && r[i] == s;
      if i > 0 {
        LineSeparator(l[i + 1]);
      }
    }
  }

  function PolicyOf(values: seq<string>): (p: Policy)
    requires |values| == 10
    ensures PolicyValues(p) == values
  {
    Policy(values[0], values[1], values[2], values[3], values[4], values[5], values[6], values[7], values[8], values[9])
  }

  /** The texts of two policies agree exactly when their values, cut at the separators, join to one text. */
  lemma {:induction false} SamePolicyText(p: Policy, q: Policy)
    ensures Render(PolicyLabels(), PolicyValues(p)) == Render(PolicyLabels(), PolicyValues(q))
       <==> Joined(Separators(PolicyLabels()), PolicyValues(p)) == Joined(Separators(PolicyLabels()), PolicyValues(q))
  {
    var l, v, w := PolicyLabels(), PolicyValues(p), PolicyValues(q);
    hide *;
    RenderIsJoined(l, v);
    RenderIsJoined(l, w);
    var x, y := Joined(Separators(l), v), Joined(Separators(l), w);
    var n := |l[0]|;
    assert x == (l[0] + x + ['\n'])[n..n + |x|];
    assert y == (l[0] + y + ['\n'])[n..n + |y|];
    assert l[0] + x + ['\n'] == l[0] + y + ['\n'] ==> |x| == |y|;
  }

  lemma {:induction false} SameText(p: Policy, q: Policy, a: Params)
    requires Render(PolicyLabels(), PolicyValues(p)) == Render(PolicyLabels(), PolicyValues(q))
    ensures Fragment(p, a) == Fragment(q, a)
  {
    hide Render, PolicyLabels, ParamLabels, PolicyValues, ParamValues;
    RenderSplit(PolicyLabels(), PolicyValues(p), ParamLabels(), ParamValues(a));
    RenderSplit(PolicyLabels(), PolicyValues(q), ParamLabels(), ParamValues(a));
  }

  /** A fragment determines its policy and parameters exactly when no separator between two policy values
      occurs inside either of them. */
  lemma {:induction false} DeterminedIff(p: Policy, a: Params)
    ensures Determined(p, a) <==> !Confusable(p)
  {
    PolicySeparatorsBorderless();
    var seps, v := Separators(PolicyLabels()), PolicyValues(p);
    hide Fragment, PolicyLabels, PolicyValues, Separators, Joined, Occurs, Borderless, Render;
    if Confusable(p) {
      var j: nat :| j < |seps| && Echoed(seps, v, j);
      var w := OtherCut(seps, v, j);
      var q := PolicyOf(w);
      SamePolicyText(p, q);
      SameText(p, q, a);
      assert Fragment(q, a) == Fragment(p, a) && q != p;
    } else {
      forall q, b | Fragment(q, b) == Fragment(p, a)
        ensures q == p && b == a
      {
        ParamsInjective(q, b, p, a);
        SamePolicyText(p, q);
        if PolicyValues(q) != v {
          TwoCuts(seps, v, PolicyValues(q));
          assert false;
        }
        PolicyValuesInjective(p, q);
      }
    }
  }

  ghost predicate LinePolicy(p: Policy) {
    OneLiners(PolicyValues(p))
  }

  /** A policy without line breaks is determined, against any other policy. */
  lemma {:induction false} FragmentInjective(p: Policy, a: Params, q: Policy, b: Params)
    requires LinePolicy(p) && Fragment(p, a) == Fragment(q, b)
    ensures p == q && a == b
  {
    var seps, v := Separators(PolicyLabels()), PolicyValues(p);
    if Confusable(p) {
      var j: nat :| j < |seps| && Echoed(seps, v, j);
      NoEcho(PolicyLabels()[j + 1], v[j]);
      NoEcho(PolicyLabels()[j + 1], v[j + 1]);
      assert false;
    }
    DeterminedIff(p, a);
    assert Fragment(q, b) == Fragment(p, a);
  }

  lemma {:induction false} NoEcho(name: string, t: string)
    requires OneLine(t)
    ensures !Occurs(['\n'] + name, t)
  {
    if Occurs(['\n'] + name, t) {
      BreakOccurs(name, t);
      assert false;
    }
  }

  lemma {:induction false} BreakOccurs(name: string, t: string)
    requires Occurs(['\n'] + name, t)
    ensures !OneLine(t)
  {
    var s := ['\n'] + name;
    var i: nat :| OccursAt(s, t, i);
    assert t[i] == t[i..i + |s|][0] && t[i] in t;
  }

  lemma {:induction false} PolicyValuesInjective(p: Policy, q: Policy)
    requires PolicyValues(p) == PolicyValues(q)
    ensures p == q
  {
    var v, w := PolicyValues(p), PolicyValues(q);
    assert forall i :: 0 <= i < 10 ==> v[i] == w[i];
  }

  /** A line break inside an info string can defeat this: text moved from one string into the next leaves
      the fragment as it was. */
  lemma {:induction false} LineBreakCollision(p: Policy, params: Params, x: string, y: string, z: string)
    ensures var n := "\nkdf-info-aes=";
            var one, other := p.(caprise := x + n + y, aes := z), p.(caprise := x, aes := y + n + z);
            one != other && Fragment(one, params) == Fragment(other, params) && Confusable(one) && Confusable(other)
  {
    var n := "\nkdf-info-aes=";
    var one, other := p.(caprise := x + n + y, aes := z), p.(caprise := x, aes := y + n + z);
    var seps := Separators(PolicyLabels());
    assert seps[1] == n;
    OccursIn(x, n, y);
    OccursIn(y, n, z);
    assert |one.caprise| > |other.caprise|;
    hide Occurs, Render, Fragment, Joined, ParamLabels, ParamValues;
    assert Echoed(seps, PolicyValues(one), 1) && Echoed(seps, PolicyValues(other), 1);
    MovedText(seps, PolicyValues(one), PolicyValues(other), x, n, y, z);
    SamePolicyText(one, other);
    SameText(one, other, params);
  }

  lemma {:induction false} MovedText(seps: seq<string>, v: seq<string>, w: seq<string>, x: string, n: string, y: string,
                                     z: string)
    requires |v| == |w| == |seps| + 1 && |seps| >= 2 && seps[1] == n
    requires v[0] == w[0] && v[3..] == w[3..]
    requires v[1] == x + n + y && v[2] == z && w[1] == x && w[2] == y + n + z
    ensures Joined(seps, v) == Joined(seps, w)
  {
    var v1, w1, s1 := v[1..], w[1..], seps[1..];
    assert w1[1..] == [(y + n) + v1[1..][0]] + v1[1..][1..];
    FirstGrown(s1[1..], v1[1..], y + n);
    CutEarly(x, n, y, Joined(s1[1..], v1[1..]));
    assert Joined(s1, v1) == Joined(s1, w1);
  }
}

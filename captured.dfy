/**
 * The captured-piece tally (useChessGame.ts:64-75): for every move of the verbose history
 * that took a piece, one more piece of that kind is counted against the side that did not
 * make the move. As in the source's `{ w: {}, b: {} }`, a kind appears in a side's map only
 * once a piece of it has been taken.
 */
module CapturedTally {
  import opened Wrappers
  import opened ChessTypes
  import opened Engine

  /** The `CapturedPieces` record of types.ts: per side, piece kind to number of pieces lost. */
  datatype CapturedPieces = CapturedPieces(w: map<PieceKind, nat>, b: map<PieceKind, nat>)
  {
    function Side(p: Player): map<PieceKind, nat> {
      if p == White then w else b
    }

    /** The number of `k` pieces of side `p` taken; a missing key reads as 0. */
    function Count(p: Player, k: PieceKind): nat {
      if k in Side(p) then Side(p)[k] else 0
    }

    /** Every stored count is positive: keys are only created by a capture. */
    ghost predicate Positive() {
      (forall k :: k in w ==> w[k] > 0) && (forall k :: k in b ==> b[k] > 0)
    }
  }

  const NoCaptures := CapturedPieces(map[], map[])

  /** 1 when move `m` took a `k` piece of side `p`, else 0. */
  function Hit(m: HistoryMove, p: Player, k: PieceKind): nat
  {
    if m.captured == Some(k) && m.color == Opponent(p) then 1 else 0
  }

  /** The tally after one more history entry: the entry adds its hit to every count. */
  function Record(c: CapturedPieces, m: HistoryMove): (r: CapturedPieces)
    ensures forall p: Player, k: PieceKind :: r.Count(p, k) == c.Count(p, k) + Hit(m, p, k)
  {
    match m.captured
    case None => c
    case Some(k) =>
      if m.color == White then
        CapturedPieces(c.w, c.b[k := c.Count(Black, k) + 1])
      else
        CapturedPieces(c.w[k := c.Count(White, k) + 1], c.b)
  }

  /** The tally of a whole history, folded from the first move to the last; no count
      exceeds the number of moves. */
  function Tally(h: seq<HistoryMove>): (r: CapturedPieces)
    ensures forall p: Player, k: PieceKind :: r.Count(p, k) <= |h|
  {
    if h == [] then NoCaptures else Record(Tally(h[..|h| - 1]), h[|h| - 1])
  }

  /** Reference count: the moves of `h` that took a `k` piece of side `p`. */
  function Captures(h: seq<HistoryMove>, p: Player, k: PieceKind): nat
  {
    if h == [] then 0 else Hit(h[0], p, k) + Captures(h[1..], p, k)
  }

  /** Reference count: the moves of `h` that took any piece. */
  function CapturingMoves(h: seq<HistoryMove>): nat
  {
    if h == [] then 0 else (if h[0].captured.Some? then 1 else 0) + CapturingMoves(h[1..])
  }

  /** The sum of a side's counts over the six piece kinds. */
  function SideTotal(c: CapturedPieces, p: Player): nat
  {
    c.Count(p, Pawn) + c.Count(p, Knight) + c.Count(p, Bishop) +
    c.Count(p, Rook) + c.Count(p, Queen) + c.Count(p, King)
  }

  /** The sum of all counts. */
  function Total(c: CapturedPieces): nat
  {
    SideTotal(c, White) + SideTotal(c, Black)
  }

  lemma {:induction false} CapturesAppend(h: seq<HistoryMove>, m: HistoryMove, p: Player, k: PieceKind)
    ensures Captures(h + [m], p, k) == Captures(h, p, k) + Hit(m, p, k)
  {
    if h != [] {
      assert (h + [m])[1..] == h[1..] + [m];
      CapturesAppend(h[1..], m, p, k);
    }
  }

  lemma {:induction false} CapturingMovesAppend(h: seq<HistoryMove>, m: HistoryMove)
    ensures CapturingMoves(h + [m]) == CapturingMoves(h) + (if m.captured.Some? then 1 else 0)
  {
    if h != [] {
      assert (h + [m])[1..] == h[1..] + [m];
      CapturingMovesAppend(h[1..], m);
    }
  }

  /** Each count of the tally is the number of history moves that took such a piece from that side. */
  lemma {:induction false} TallyCounts(h: seq<HistoryMove>, p: Player, k: PieceKind)
    ensures Tally(h).Count(p, k) == Captures(h, p, k)
  {
    if h != [] {
      var front, last := h[..|h| - 1], h[|h| - 1];
      assert h == front + [last];
      TallyCounts(front, p, k);
      CapturesAppend(front, last, p, k);
    }
  }

  /** The hits of one entry on a side, summed over the six piece kinds. */
  function SideHits(m: HistoryMove, p: Player): nat
  {
    Hit(m, p, Pawn) + Hit(m, p, Knight) + Hit(m, p, Bishop) +
    Hit(m, p, Rook) + Hit(m, p, Queen) + Hit(m, p, King)
  }

  lemma RecordSideTotal(c: CapturedPieces, m: HistoryMove, p: Player)
    ensures SideTotal(Record(c, m), p) == SideTotal(c, p) + SideHits(m, p)
  {
  }

  /** One entry raises the sum of all counts by one exactly when it took a piece. */
  lemma RecordTotal(c: CapturedPieces, m: HistoryMove)
    ensures Total(Record(c, m)) == Total(c) + (if m.captured.Some? then 1 else 0)
  {
    RecordSideTotal(c, m, White);
    RecordSideTotal(c, m, Black);
    match m.captured {
      case None =>
      case Some(k) =>
        match k {
          case Pawn => case Knight => case Bishop => case Rook => case Queen => case King =>
        }
    }
  }

  /** The counts add up to the number of capturing moves. */
  lemma {:induction false} TallyTotal(h: seq<HistoryMove>)
    ensures Total(Tally(h)) == CapturingMoves(h)
  {
    if h != [] {
      var front, last := h[..|h| - 1], h[|h| - 1];
      assert h == front + [last];
      TallyTotal(front);
      CapturingMovesAppend(front, last);
      RecordTotal(Tally(front), last);
    }
  }

  /** A move that took nothing leaves the tally as it was. */
  lemma NonCaptureIsNeutral(h: seq<HistoryMove>, m: HistoryMove)
    requires m.captured.None?
    ensures Tally(h + [m]) == Tally(h)
  {
    assert (h + [m])[..|h|] == h;
  }

  /** A kind is present in a side's map only with a positive count. */
  lemma {:induction false} TallyPositive(h: seq<HistoryMove>)
    ensures Tally(h).Positive()
  {
    if h != [] {
      TallyPositive(h[..|h| - 1]);
    }
  }

  /** The reference count only depends on how often each entry occurs in the history. */
  lemma {:induction false} CapturesIsMultiplicity(h: seq<HistoryMove>, p: Player, k: PieceKind)
    ensures Captures(h, p, k) == multiset(h)[HistoryMove(Opponent(p), Some(k))]
  {
    if h != [] {
      assert h == [h[0]] + h[1..];
      assert multiset(h) == multiset{h[0]} + multiset(h[1..]);
      CapturesIsMultiplicity(h[1..], p, k);
    }
  }

  /** Two tallies with all-positive counts that agree on every count are equal. */
  lemma SameCountsSameTally(c1: CapturedPieces, c2: CapturedPieces)
    requires c1.Positive() && c2.Positive()
    requires forall p: Player, k: PieceKind :: c1.Count(p, k) == c2.Count(p, k)
    ensures c1 == c2
  {
    forall k | k in c1.w || k in c2.w
      ensures k in c1.w && k in c2.w && c1.w[k] == c2.w[k]
    {
      assert c1.Count(White, k) == c2.Count(White, k);
    }
    forall k | k in c1.b || k in c2.b
      ensures k in c1.b && k in c2.b && c1.b[k] == c2.b[k]
    {
      assert c1.Count(Black, k) == c2.Count(Black, k);
    }
    assert c1.w == c2.w;
    assert c1.b == c2.b;
  }

  /** The tally does not depend on the order of the history, only on its entries. */
  lemma TallyOrderIndependent(h1: seq<HistoryMove>, h2: seq<HistoryMove>)
    requires multiset(h1) == multiset(h2)
    ensures Tally(h1) == Tally(h2)
  {
    forall p: Player, k: PieceKind ensures Tally(h1).Count(p, k) == Tally(h2).Count(p, k) {
      TallyCounts(h1, p, k);
      TallyCounts(h2, p, k);
      CapturesIsMultiplicity(h1, p, k);
      CapturesIsMultiplicity(h2, p, k);
    }
    TallyPositive(h1);
    TallyPositive(h2);
    SameCountsSameTally(Tally(h1), Tally(h2));
  }

  /** The `forEach` loop of the hook: one pass over the history, bumping one entry per capture. */
  method CountCaptured(history: seq<HistoryMove>) returns (captured: CapturedPieces)
    ensures captured == Tally(history)
  {
    captured := CapturedPieces(map[], map[]);
    var i := 0;
    while i < |history|
      invariant 0 <= i <= |history|
      invariant captured == Tally(history[..i])
    {
      var move := history[i];
      if move.captured.Some? {
        var piece := move.captured.value;
        if move.color == White {
          captured := captured.(b := captured.b[piece := (if piece in captured.b then captured.b[piece] else 0) + 1]);
        } else {
          captured := captured.(w := captured.w[piece := (if piece in captured.w then captured.w[piece] else 0) + 1]);
        }
      }
      assert history[..i + 1][..i] == history[..i];
      i := i + 1;
    }
    assert history[..i] == history;
  }
}

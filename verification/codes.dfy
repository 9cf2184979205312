/**
  The theater-code response of the movie data layer.

  A response carries one code group per cinema chain (CGV, Lotte Cinema,
  Megabox). Each group lists its areas, and each area lists its theaters.
  The two queries of the response flatten this tree: first into the list of
  all areas, chain by chain, then into the list of all theaters, area by area.
  Both are Dafny functions over immutable datatypes, so neither can change
  the response it is asked about.
 */
module Codes {

  /** A theater of some chain. Its fields play no part in the flattening. */
  type Theater(==)

  /** One area (region) of a chain, with the theaters it contains. */
  datatype AreaGroup = AreaGroup(theaterList: seq<Theater>)

  /** The areas of one chain. */
  datatype CodeGroup = CodeGroup(list: seq<AreaGroup>)

  /** The whole response: one code group per chain. */
  datatype CodeResponse = CodeResponse(cgv: CodeGroup, lotte: CodeGroup, megabox: CodeGroup)

  /** The three chains, in the order in which the response lists them. */
  datatype Chain = Cgv | Lotte | Megabox

  function GroupOf(r: CodeResponse, c: Chain): CodeGroup {
    match c
    case Cgv => r.cgv
    case Lotte => r.lotte
    case Megabox => r.megabox
  }

  /** Position of a chain in the response's fixed order. */
  function Rank(c: Chain): nat {
    match c
    case Cgv => 0
    case Lotte => 1
    case Megabox => 2
  }

  // ---------------------------------------------------------------------------
  // flatMap over sequences
  // ---------------------------------------------------------------------------

  /** The sum of the lengths of f(x) over the elements x of xs. */
  function TotalLength<A, B>(xs: seq<A>, f: A -> seq<B>): nat {
    if |xs| == 0 then 0 else |f(xs[0])| + TotalLength(xs[1..], f)
  }

  /**
    Kotlin's `flatMap`: apply f to every element and concatenate the results,
    keeping the order of xs.
   */
  function FlatMap<A, B>(xs: seq<A>, f: A -> seq<B>): (r: seq<B>)
    ensures |r| == TotalLength(xs, f)
    ensures |xs| == 0 ==> r == []
  {
    if |xs| == 0 then [] else f(xs[0]) + FlatMap(xs[1..], f)
  }

  /** flatMap distributes over concatenation of its input. */
  lemma {:induction false} FlatMapAppend<A, B>(xs: seq<A>, ys: seq<A>, f: A -> seq<B>)
    ensures FlatMap(xs + ys, f) == FlatMap(xs, f) + FlatMap(ys, f)
  {
    if |xs| == 0 {
      assert xs + ys == ys;
    } else {
      assert (xs + ys)[1..] == xs[1..] + ys;
      FlatMapAppend(xs[1..], ys, f);
    }
  }

  /** flatMap over a three-element list is the concatenation of the three images. */
  lemma FlatMapOfThree<A, B>(a: A, b: A, c: A, f: A -> seq<B>)
    ensures FlatMap([a, b, c], f) == f(a) + f(b) + f(c)
  {
    assert [a, b, c][1..] == [b, c];
    assert [b, c][1..] == [c];
    assert [c][1..] == [];
    assert FlatMap([c], f) == f(c) + FlatMap([], f) == f(c);
    assert FlatMap([b, c], f) == f(b) + FlatMap([c], f);
    assert FlatMap([a, b, c], f) == f(a) + FlatMap([b, c], f);
  }

  /** An element is in the result of flatMap iff it is in the image of some element. */
  lemma {:induction false} FlatMapMember<A, B>(xs: seq<A>, f: A -> seq<B>, y: B)
    ensures y in FlatMap(xs, f) <==> exists i :: 0 <= i < |xs| && y in f(xs[i])
  {
    if |xs| > 0 {
      FlatMapMember(xs[1..], f, y);
      if y in FlatMap(xs, f) {
        if y !in f(xs[0]) {
          var i :| 0 <= i < |xs[1..]| && y in f(xs[1..][i]);
          assert y in f(xs[i + 1]);
        }
      } else {
        forall i | 0 <= i < |xs|
          ensures y !in f(xs[i])
        {
          if i > 0 {
            assert xs[1..][i - 1] == xs[i];
          }
        }
      }
    }
  }

  // ---------------------------------------------------------------------------
  // The two queries of a response
  // ---------------------------------------------------------------------------

  function AreasOf(g: CodeGroup): seq<AreaGroup> {
    g.list
  }

  function TheatersIn(a: AreaGroup): seq<Theater> {
    a.theaterList
  }

  /**
    All areas of the response: the flatMap of the three groups' area lists,
    taken in the order CGV, Lotte, Megabox.
   */
  function ToAreaGroupList(r: CodeResponse): (areas: seq<AreaGroup>)
    ensures areas == r.cgv.list + r.lotte.list + r.megabox.list
    ensures |areas| == |r.cgv.list| + |r.lotte.list| + |r.megabox.list|
  {
    FlatMapOfThree(r.cgv, r.lotte, r.megabox, AreasOf);
    FlatMap([r.cgv, r.lotte, r.megabox], AreasOf)
  }

  /** The theaters of one chain, area by area. */
  function ChainTheaters(g: CodeGroup): seq<Theater> {
    FlatMap(g.list, TheatersIn)
  }

  /** The number of theaters of one chain: the sum of its areas' list lengths. */
  function TheaterCount(g: CodeGroup): nat {
    TotalLength(g.list, TheatersIn)
  }

  /**
    All theaters of the response: the flatMap of the areas' theater lists over
    the area list. The result is the CGV theaters, then the Lotte theaters,
    then the Megabox theaters.
   */
  function ToTheaterList(r: CodeResponse): (theaters: seq<Theater>)
    ensures theaters == ChainTheaters(r.cgv) + ChainTheaters(r.lotte) + ChainTheaters(r.megabox)
    ensures |theaters| == TheaterCount(r.cgv) + TheaterCount(r.lotte) + TheaterCount(r.megabox)
  {
    FlatMapAppend(r.cgv.list + r.lotte.list, r.megabox.list, TheatersIn);
    FlatMapAppend(r.cgv.list, r.lotte.list, TheatersIn);
    FlatMap(ToAreaGroupList(r), TheatersIn)
  }

  // ---------------------------------------------------------------------------
  // Membership
  // ---------------------------------------------------------------------------

  /** t is listed by some area of group g. */
  ghost predicate InSomeArea(g: CodeGroup, t: Theater) {
    exists a :: a in g.list && t in a.theaterList
  }

  lemma ChainTheatersMember(g: CodeGroup, t: Theater)
    ensures t in ChainTheaters(g) <==> InSomeArea(g, t)
  {
    FlatMapMember(g.list, TheatersIn, t);
    if InSomeArea(g, t) {
      var a :| a in g.list && t in a.theaterList;
      var i :| 0 <= i < |g.list| && g.list[i] == a;
      assert t in TheatersIn(g.list[i]);
    }
  }

  /**
    A theater is in the theater list iff some area of CGV, Lotte or Megabox
    lists it.
   */
  lemma TheaterListMember(r: CodeResponse, t: Theater)
    ensures t in ToTheaterList(r) <==> InSomeArea(r.cgv, t) || InSomeArea(r.lotte, t) || InSomeArea(r.megabox, t)
  {
    ChainTheatersMember(r.cgv, t);
    ChainTheatersMember(r.lotte, t);
    ChainTheatersMember(r.megabox, t);
  }

  /** An area is in the area list iff one of the three chains lists it. */
  lemma AreaGroupListMember(r: CodeResponse, a: AreaGroup)
    ensures a in ToAreaGroupList(r) <==> exists c: Chain :: a in GroupOf(r, c).list
  {
    if a in r.cgv.list {
      assert a in GroupOf(r, Cgv).list;
    } else if a in r.lotte.list {
      assert a in GroupOf(r, Lotte).list;
    } else if a in r.megabox.list {
      assert a in GroupOf(r, Megabox).list;
    }
  }

  // ---------------------------------------------------------------------------
  // Order by chain
  // ---------------------------------------------------------------------------

  /** Index in the theater list at which the theaters of chain c begin. */
  function Offset(r: CodeResponse, c: Chain): nat {
    match c
    case Cgv => 0
    case Lotte => TheaterCount(r.cgv)
    case Megabox => TheaterCount(r.cgv) + TheaterCount(r.lotte)
  }

  /** The chain whose theaters occupy index i of the theater list. */
  function ChainAt(r: CodeResponse, i: nat): Chain {
    if i < Offset(r, Lotte) then Cgv
    else if i < Offset(r, Megabox) then Lotte
    else Megabox
  }

  /**
    The theaters of chain c form one contiguous block of the theater list,
    starting at Offset(r, c), in the order the chain lists them.
   */
  lemma TheaterListBlock(r: CodeResponse, c: Chain)
    ensures Offset(r, c) + TheaterCount(GroupOf(r, c)) <= |ToTheaterList(r)|
    ensures ToTheaterList(r)[Offset(r, c)..Offset(r, c) + TheaterCount(GroupOf(r, c))] == ChainTheaters(GroupOf(r, c))
  {
    var cg, lo, mb := ChainTheaters(r.cgv), ChainTheaters(r.lotte), ChainTheaters(r.megabox);
    var ts := ToTheaterList(r);
    assert ts == cg + lo + mb;
    match c
    case Cgv => assert ts[..|cg|] == cg;
    case Lotte => assert ts[|cg|..|cg| + |lo|] == lo;
    case Megabox => assert ts[|cg| + |lo|..] == mb;
  }

  /**
    The theater at index i of the theater list is taken from the chain
    ChainAt(r, i), at its position within that chain's block.
   */
  lemma TheaterAt(r: CodeResponse, i: nat)
    requires i < |ToTheaterList(r)|
    ensures var c := ChainAt(r, i);
      && Offset(r, c) <= i < Offset(r, c) + TheaterCount(GroupOf(r, c))
      && ToTheaterList(r)[i] == ChainTheaters(GroupOf(r, c))[i - Offset(r, c)]
      && InSomeArea(GroupOf(r, c), ToTheaterList(r)[i])
  {
    var c := ChainAt(r, i);
    TheaterListBlock(r, c);
    var block := ToTheaterList(r)[Offset(r, c)..Offset(r, c) + TheaterCount(GroupOf(r, c))];
    assert block[i - Offset(r, c)] == ToTheaterList(r)[i];
    ChainTheatersMember(GroupOf(r, c), ToTheaterList(r)[i]);
  }

  /**
    Every theater of an earlier chain precedes every theater of a later one:
    the p-th theater of chain c1 and the q-th theater of chain c2 both appear
    in the theater list, and when c1 comes before c2 in the response's order,
    the first sits at a smaller index than the second.
   */
  lemma ChainsInOrder(r: CodeResponse, c1: Chain, p: nat, c2: Chain, q: nat)
    requires Rank(c1) < Rank(c2)
    requires p < TheaterCount(GroupOf(r, c1)) && q < TheaterCount(GroupOf(r, c2))
    ensures Offset(r, c1) + p < Offset(r, c2) + q < |ToTheaterList(r)|
    ensures ToTheaterList(r)[Offset(r, c1) + p] == ChainTheaters(GroupOf(r, c1))[p]
    ensures ToTheaterList(r)[Offset(r, c2) + q] == ChainTheaters(GroupOf(r, c2))[q]
  {
    TheaterListBlock(r, c1);
    TheaterListBlock(r, c2);
    var b1 := ToTheaterList(r)[Offset(r, c1)..Offset(r, c1) + TheaterCount(GroupOf(r, c1))];
    var b2 := ToTheaterList(r)[Offset(r, c2)..Offset(r, c2) + TheaterCount(GroupOf(r, c2))];
    assert b1[p] == ToTheaterList(r)[Offset(r, c1) + p];
    assert b2[q] == ToTheaterList(r)[Offset(r, c2) + q];
  }

  // ---------------------------------------------------------------------------
  // Empty responses
  // ---------------------------------------------------------------------------

  /** With no areas at all, both queries return the empty list. */
  lemma EmptyResponse(r: CodeResponse)
    requires r.cgv.list == [] && r.lotte.list == [] && r.megabox.list == []
    ensures ToAreaGroupList(r) == []
    ensures ToTheaterList(r) == []
  {
  }

  /** The theater list is empty iff every area of every chain lists no theater. */
  lemma TheaterListEmpty(r: CodeResponse)
    ensures ToTheaterList(r) == [] <==> forall c: Chain, a :: a in GroupOf(r, c).list ==> a.theaterList == []
  {
    var ts := ToTheaterList(r);
    if ts == [] {
      forall c: Chain, a | a in GroupOf(r, c).list
        ensures a.theaterList == []
      {
        if a.theaterList != [] {
          var t := a.theaterList[0];
          assert InSomeArea(GroupOf(r, c), t);
          TheaterListMember(r, t);
          match c
          case Cgv =>
          case Lotte =>
          case Megabox =>
        }
      }
    } else {
      var t := ts[0];
      TheaterListMember(r, t);
      var g := if InSomeArea(r.cgv, t) then r.cgv else if InSomeArea(r.lotte, t) then r.lotte else r.megabox;
      var c := if InSomeArea(r.cgv, t) then Cgv else if InSomeArea(r.lotte, t) then Lotte else Megabox;
      assert GroupOf(r, c) == g && InSomeArea(g, t);
      var a :| a in g.list && t in a.theaterList;
      assert a.theaterList != [];
    }
  }
}

/** The page ranges of the Digg-style paginator: a leading block, the main block around the
    current page, and a trailing block. */
module DiggPaginator {
  import opened Basics
  import opened Options

  datatype Config = Config(body: int, tail: int, alignLeft: bool, margin: int, padding: int)

  function Ceil(body: int): int { (body + 1) / 2 }

  function MaxPadding(body: int): int { Ceil(body) - 1 }

  /** The constructor: padding defaults to min(4, maximum) and may not exceed the maximum; the
      default is always accepted. */
  function MakeConfig(body: int, tail: int, alignLeft: bool, margin: int, padding: Option<int>): (c: Option<Config>)
    ensures c.Some? <==> padding.None? || padding.value <= MaxPadding(body)
    ensures c.Some? && body >= 1 && tail >= 1 && margin >= 0 && (padding.Some? ==> padding.value >= 0) ==>
              Sensible(c.value)
    ensures c.Some? ==>
      && c.value.body == body && c.value.tail == tail && c.value.alignLeft == alignLeft && c.value.margin == margin
      && c.value.padding == if padding.Some? then padding.value else Min(4, MaxPadding(body))
  {
    var most := MaxPadding(body);
    var p := if padding.Some? then padding.value else if most < 4 then most else 4;
    if p > most then None else Some(Config(body, tail, alignLeft, margin, p))
  }

  /** first..last, empty when last < first. */
  function Range(first: int, last: int): (r: seq<int>)
    ensures |r| == if last < first then 0 else last - first + 1
    ensures forall i :: 0 <= i < |r| ==> r[i] == first + i
  {
    if last < first then [] else seq(last - first + 1, i => first + i)
  }

  /** An entry of the combined range: a page, or the gap False. */
  datatype Item = Page(number: int) | Gap

  function Items(r: seq<int>): (items: seq<Item>)
    ensures |items| == |r| && forall i :: 0 <= i < |r| ==> items[i] == Page(r[i])
  {
    seq(|r|, i requires 0 <= i < |r| => Page(r[i]))
  }

  function JoinTwo(x: seq<Item>, y: seq<Item>): seq<Item> {
    x + (if x != [] && y != [] then [Gap] else []) + y
  }

  datatype Ranges = Ranges(leading: seq<int>, main: seq<int>, trailing: seq<int>, pageRange: seq<Item>)

  ghost predicate Sensible(c: Config) {
    c.body >= 1 && c.tail >= 1 && c.margin >= 0 && 0 <= c.padding <= MaxPadding(c.body)
  }

  /** Strictly increasing pages within 1..numPages, block by block. */
  ghost predicate InOrder(r: Ranges, numPages: int) {
    var all := r.leading + r.main + r.trailing;
    && (forall i :: 0 <= i < |all| ==> 1 <= all[i] <= numPages)
    && (forall i, j :: 0 <= i < j < |all| ==> all[i] < all[j])
  }

  /** What a reader of the page bar relies on: the blocks are in order, page 1, the current page
      and (unless aligned left) the last page can be reached, neighbouring blocks are more than
      `margin` apart, and the main block is as wide as asked for. */
  ghost predicate Navigable(c: Config, number: int, numPages: int, r: Ranges) {
    && r.main != [] && InOrder(r, numPages)
    && number in r.main
    && 1 in r.leading + r.main
    && (!c.alignLeft ==> numPages in r.main + r.trailing)
    && (r.leading != [] ==> r.leading == Range(1, c.tail) && r.main[0] - r.leading[|r.leading| - 1] > c.margin)
    && (r.trailing != [] ==> !c.alignLeft && r.trailing == Range(numPages - c.tail + 1, numPages)
                             && r.trailing[0] - r.main[|r.main| - 1] > c.margin)
    && |r.main| >= Min(c.body, numPages)
    && (forall i :: 0 <= i < |r.main| ==> r.main[i] == r.main[0] + i)
  }

  /** The numbers behind the blocks. */
  ghost predicate Placed(c: Config, number: int, numPages: int, lo: int, hi: int, leads: bool, trails: bool) {
    && 1 <= lo <= number <= hi <= numPages && hi - lo + 1 >= Min(c.body, numPages)
    && (if leads then lo > c.tail + c.margin else lo == 1)
    && (if trails then !c.alignLeft && hi < numPages - c.tail + 1 - c.margin else c.alignLeft || hi == numPages)
  }

  /** Which blocks there are and where the main block ends, without clamping step by step: a leading
      block when both the window and the last full window start beyond tail and margin; a trailing
      block when the main block ends before them.  Where an end is merged with its block the other
      end keeps at least the padding; where both are, all pages are listed. */
  ghost predicate Exactly(c: Config, number: int, numPages: int, lo: int, hi: int, leads: bool, trails: bool) {
    var edge, beyond := c.tail + c.margin, numPages - c.tail - c.margin + 1;
    && (leads <==> number - Ceil(c.body) + 1 > edge && numPages - c.body + 1 > edge)
    && (trails <==> !c.alignLeft && (if leads then number + c.body / 2 else Max(c.body, number + c.padding)) < beyond)
    && (leads && trails ==> lo == number - Ceil(c.body) + 1 && hi == number + c.body / 2)
    && (leads && c.alignLeft ==> hi == Min(numPages, number + c.body / 2) && lo == hi - c.body + 1)
    && (leads && !trails && !c.alignLeft ==> lo == Min(number - c.padding, numPages - c.body + 1) && hi == numPages)
    && (!leads && (trails || c.alignLeft) ==> lo == 1 && hi == Min(numPages, Max(c.body, number + c.padding)))
    && (!leads && !trails && !c.alignLeft ==> lo == 1 && hi == numPages)
  }

  lemma Blocks(c: Config, number: int, numPages: int, lo: int, hi: int, leads: bool, trails: bool, r: Ranges)
    requires Sensible(c) && Placed(c, number, numPages, lo, hi, leads, trails)
    requires r.main == Range(lo, hi)
    requires r.leading == if leads then Range(1, c.tail) else []
    requires r.trailing == if trails then Range(numPages - c.tail + 1, numPages) else []
    ensures Navigable(c, number, numPages, r)
  {
    assert r.main[number - lo] == number;
    Reachable(r.leading, r.main, r.trailing, 1, numPages);
    BlocksInOrder(r, numPages);
  }

  /** The first entry of the first block and the last entry of the last one. */
  lemma Reachable(leading: seq<int>, main: seq<int>, trailing: seq<int>, first: int, last: int)
    requires main != []
    ensures (if leading == [] then main[0] else leading[0]) == first ==> first in leading + main
    ensures (if trailing == [] then main[|main| - 1] else trailing[|trailing| - 1]) == last ==> last in main + trailing
  {
  }

  ghost predicate Ascending(s: seq<int>, from: int, to: int) {
    && (forall i :: 0 <= i < |s| ==> from <= s[i] <= to)
    && (forall i, j :: 0 <= i < j < |s| ==> s[i] < s[j])
  }

  lemma BlocksInOrder(r: Ranges, numPages: int)
    requires r.main != [] && Ascending(r.main, r.main[0], r.main[|r.main| - 1])
    requires 1 <= r.main[0] && r.main[|r.main| - 1] <= numPages
    requires Ascending(r.leading, 1, r.main[0] - 1) && Ascending(r.trailing, r.main[|r.main| - 1] + 1, numPages)
    ensures InOrder(r, numPages)
  {
  }

  lemma ExactlyPlaces(c: Config, number: int, numPages: int, lo: int, hi: int, leads: bool, trails: bool)
    requires Sensible(c) && 1 <= number <= numPages && Exactly(c, number, numPages, lo, hi, leads, trails)
    ensures Placed(c, number, numPages, lo, hi, leads, trails)
  {
  }

  /** The window of `body` pages around the current page, pushed into the pages; an even body
      leans to the right. */
  method Window(body: int, number: int, numPages: int) returns (lo: int, hi: int)
    requires 1 <= number <= numPages
    ensures hi - lo == body - 1
    ensures body >= 1 ==> hi <= numPages && lo <= number <= hi && (lo >= 1 || hi == numPages)
    ensures lo == Min(Max(number - Ceil(body) + 1, 1), numPages - body + 1)
  {
    lo, hi := number - Ceil(body) + 1, number + body / 2;
    if lo < 1 {
      var shift := 1 - lo;
      lo, hi := lo + shift, hi + shift;
    }
    if hi > numPages {
      var shift := numPages - hi;
      lo, hi := lo + shift, hi + shift;
    }
  }

  /** The branches of the source, on the two ends of the main block. */
  method Place(c: Config, number: int, numPages: int) returns (lo: int, hi: int, leads: bool, trails: bool)
    requires 1 <= number <= numPages
    ensures Sensible(c) ==> Exactly(c, number, numPages, lo, hi, leads, trails)
  {
    var body, tail, padding, margin := c.body, c.tail, c.padding, c.margin;
    lo, hi := Window(body, number, numPages);
    leads := lo > tail + margin;
    if !leads { lo, hi := 1, Max(body, Min(number + padding, hi)); }
    trails := false;
    if !c.alignLeft {
      if hi >= numPages - (tail + margin) + 1 {
        if !leads || Range(1, tail) == [] {
          lo, hi := 1, numPages;
        } else {
          lo, hi := Min(numPages - body + 1, Max(number - padding, lo)), numPages;
        }
      } else {
        trails := true;
      }
    }
    lo, hi := Max(lo, 1), Min(hi, numPages);
  }

  method PageRanges(c: Config, number: int, numPages: int) returns (r: Ranges)
    requires 1 <= number <= numPages
    ensures Sensible(c) ==> Navigable(c, number, numPages, r)
    ensures Sensible(c) ==>
      Exactly(c, number, numPages, r.main[0], r.main[|r.main| - 1], r.leading != [], r.trailing != [])
    ensures r.pageRange == JoinTwo(JoinTwo(Items(r.leading), Items(r.main)), Items(r.trailing))
  {
    var lo, hi, leads, trails := Place(c, number, numPages);
    var leading := if leads then Range(1, c.tail) else [];
    var trailing := if trails then Range(numPages - c.tail + 1, numPages) else [];
    var main := Range(lo, hi);
    r := Ranges(leading, main, trailing, JoinTwo(JoinTwo(Items(leading), Items(main)), Items(trailing)));
    if Sensible(c) {
      ExactlyPlaces(c, number, numPages, lo, hi, leads, trails);
      Blocks(c, number, numPages, lo, hi, leads, trails, r);
    }
  }

  // ---------- the combined range ----------

  function PageOf(item: Item): seq<int> {
    if item.Page? then [item.number] else []
  }

  function Pages(items: seq<Item>): seq<int> {
    if items == [] then [] else PageOf(items[0]) + Pages(items[1..])
  }

  lemma {:induction false} PagesConcat(x: seq<Item>, y: seq<Item>)
    ensures Pages(x + y) == Pages(x) + Pages(y)
  {
    if x == [] {
      assert x + y == y;
    } else {
      assert (x + y)[1..] == x[1..] + y;
      PagesConcat(x[1..], y);
      Associate(PageOf(x[0]), Pages(x[1..]), Pages(y));
    }
  }

  lemma {:induction false} PagesOfItems(r: seq<int>)
    ensures Pages(Items(r)) == r
  {
    if r != [] {
      assert Items(r)[1..] == Items(r[1..]);
      PagesOfItems(r[1..]);
    }
  }

  lemma PagesJoin(x: seq<Item>, y: seq<Item>)
    ensures Pages(JoinTwo(x, y)) == Pages(x) + Pages(y)
  {
    var gap: seq<Item> := if x != [] && y != [] then [Gap] else [];
    assert Pages(gap) == [];
    PagesConcat(x, gap);
    PagesConcat(x + gap, y);
  }

  /** The combined range lists exactly the pages of the three blocks, in order, with a gap just
      where two nonempty blocks meet and nowhere else. */
  lemma CombinedRange(leading: seq<int>, main: seq<int>, trailing: seq<int>)
    requires main != []
    ensures var items := JoinTwo(JoinTwo(Items(leading), Items(main)), Items(trailing));
      && Pages(items) == leading + main + trailing
      && (forall i :: 0 <= i < |items| ==> (items[i] == Gap <==>
            (leading != [] && i == |leading|) || (trailing != [] && i == |items| - |trailing| - 1)))
  {
    PagesOfItems(leading);
    PagesOfItems(main);
    PagesOfItems(trailing);
    PagesJoin(Items(leading), Items(main));
    PagesJoin(JoinTwo(Items(leading), Items(main)), Items(trailing));
  }
}

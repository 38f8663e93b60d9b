/** Paging through saved evidence: every page advances, was measured, and the pages join without gap or repeat. */
module EvidencePages {
  import opened Wrappers

  const LARGEST_REQUEST := 12000
  const DEFAULT_PAGE := 4000
  const SAVED_PAGE := 1200

  /** One page of a text: what it holds, where it starts, and where the next one does. */
  datatype Page = Page(content: string, offset: nat, next: nat, more: bool)

  /** A page is the slice it claims to be, and knows whether text is left. */
  predicate PageOf(text: string, p: Page) {
    && p.offset <= p.next <= |text| && p.content == text[p.offset..p.next]
    && (p.more <==> p.next < |text|)
  }

  /** With text left, a page is not empty. */
  predicate Advances(text: string, p: Page) {
    p.offset < |text| ==> p.offset < p.next
  }

  // ---- Following next_offset ----

  predicate Linked(pages: seq<Page>, i: nat)
    requires 0 < i < |pages|
  {
    pages[i].offset == pages[i - 1].next && pages[i - 1].more
  }

  predicate Follows(text: string, pages: seq<Page>) {
    && (forall i | 0 <= i < |pages| :: PageOf(text, pages[i]) && Advances(text, pages[i]))
    && (forall i | 0 < i < |pages| :: Linked(pages, i))
  }

  function Joined(pages: seq<Page>): string {
    if pages == [] then "" else Joined(pages[..|pages| - 1]) + pages[|pages| - 1].content
  }

  lemma PrefixFollows(text: string, pages: seq<Page>, n: nat)
    requires Follows(text, pages) && n <= |pages|
    ensures Follows(text, pages[..n])
  {
    forall i | 0 < i < n ensures Linked(pages[..n], i) {
      assert Linked(pages, i);
    }
  }

  /** Pages read from the start, each where the one before it ended, give back exactly what they cover. */
  lemma {:induction false} PagesReconstruct(text: string, pages: seq<Page>)
    requires pages != [] && Follows(text, pages) && pages[0].offset == 0
    ensures Joined(pages) == text[..pages[|pages| - 1].next]
    ensures !pages[|pages| - 1].more ==> Joined(pages) == text
  {
    var n := |pages| - 1;
    var last := pages[n];
    if n == 0 {
      assert pages[..0] == [];
    } else {
      PrefixFollows(text, pages, n);
      PagesReconstruct(text, pages[..n]);
      assert Linked(pages, n);
      SliceJoin(text, last.offset, last.next);
    }
  }

  lemma SliceJoin(text: string, a: nat, b: nat)
    requires a <= b <= |text|
    ensures text[..b] == text[..a] + text[a..b]
  {
  }

  /** And reading on ends: there are at most as many pages as characters, and one. */
  lemma {:induction false} PagesEnd(text: string, pages: seq<Page>)
    requires pages != [] && Follows(text, pages)
    ensures |pages| <= pages[|pages| - 1].next + 1 <= |text| + 1
  {
    var n := |pages| - 1;
    if n > 0 {
      PrefixFollows(text, pages, n);
      PagesEnd(text, pages[..n]);
      assert Linked(pages, n);
    }
  }

  // ---- executeEvidenceRead ----

  /** Whether the whole encoded receipt of a page of some length is within the inline budget; any ruler at all. */
  type Ruler = nat -> bool

  /** Longer pages never fit where shorter ones did not. */
  predicate Monotone(fits: Ruler, limit: nat) {
    forall a, b | 0 <= a <= b <= limit :: fits(b) ==> fits(a)
  }

  /** The search keeps only lengths it measured, and with a monotone ruler finds the largest that fits. */
  method LargestFitting(limit: nat, fits: Ruler) returns (low: nat)
    ensures low <= limit && (low > 0 ==> fits(low))
    ensures Monotone(fits, limit) ==> forall n | low < n <= limit :: !fits(n)
  {
    low := 0;
    var high := limit;
    while low < high
      invariant low <= high <= limit && (low > 0 ==> fits(low))
      invariant Monotone(fits, limit) ==> forall n | high < n <= limit :: !fits(n)
      decreases high - low
    {
      var middle := (low + high + 1) / 2;
      if fits(middle) {
        low := middle;
      } else {
        high := middle - 1;
      }
    }
  }

  datatype ReadError = BadBounds | PastEnd | NothingFits

  method ReadEvidence(text: string, offset: int, maxChars: int, fits: Ruler) returns (result: Result<Page, ReadError>)
    ensures result == Err(BadBounds) <==> offset < 0 || maxChars < 0 || maxChars > LARGEST_REQUEST
    ensures result == Err(PastEnd) <==> 0 <= offset && 0 <= maxChars <= LARGEST_REQUEST && offset > |text|
    ensures result == Err(NothingFits) && Monotone(fits, |text|) ==> !fits(1)
    ensures result.Ok? ==>
      && PageOf(text, result.value) && Advances(text, result.value) && result.value.offset == offset
      && |result.value.content| <= (if maxChars == 0 then DEFAULT_PAGE else maxChars)
      && (offset < |text| ==> fits(|result.value.content|))
  {
    if offset < 0 || maxChars < 0 || maxChars > LARGEST_REQUEST {
      return Err(BadBounds);
    }
    if offset > |text| {
      return Err(PastEnd);
    }
    var limit := if maxChars == 0 then DEFAULT_PAGE else maxChars;
    if limit > |text| - offset {
      limit := |text| - offset;
    }
    var length := LargestFitting(limit, fits);
    if length == 0 && limit > 0 {
      return Err(NothingFits);
    }
    return Ok(Page(text[offset..offset + length], offset, offset + length, offset + length != |text|));
  }

  // ---- savedEvidencePage and the working copy of a page ----

  function SavedPage(text: string, offset: nat): (r: Option<Page>)
    ensures r.None? <==> offset > |text|
    ensures r.Some? ==> PageOf(text, r.value) && Advances(text, r.value) && r.value.offset == offset
  {
    if offset > |text| then None
    else
      var end := if offset + SAVED_PAGE < |text| then offset + SAVED_PAGE else |text|;
      Some(Page(text[offset..end], offset, end, end < |text|))
  }

  /** The first runes of a page, with its paging controls moved along. */
  function Shortened(p: Page, size: nat, total: nat): Page {
    if |p.content| > size then Page(p.content[..size], p.offset, p.offset + size, p.offset + size < total) else p
  }

  lemma ShortenedIsPage(text: string, p: Page, size: nat)
    requires PageOf(text, p) && Advances(text, p) && size > 0
    ensures PageOf(text, Shortened(p, size, |text|)) && Advances(text, Shortened(p, size, |text|))
  {
    if |p.content| > size {
      assert p.content[..size] == text[p.offset..p.offset + size];
    }
  }

  /** The halving loop of projectedEvidence on a retrieved page: the result is still an honest page of the text. */
  method ShrinkPage(text: string, page: Page, fits: Page -> bool) returns (p: Page)
    requires PageOf(text, page) && Advances(text, page)
    ensures PageOf(text, p) && Advances(text, p) && p.offset == page.offset
    ensures p.content <= page.content
    ensures fits(p) || |p.content| < 80
  {
    p := page;
    var size := SAVED_PAGE;
    while size >= 40
      invariant 0 <= size <= SAVED_PAGE
      invariant PageOf(text, p) && Advances(text, p) && p.offset == page.offset && p.content <= page.content
      invariant size < SAVED_PAGE ==> |p.content| <= 2 * size + 1
      decreases size
    {
      ShortenedIsPage(text, p, size);
      p := Shortened(p, size, |text|);
      if fits(p) {
        return;
      }
      size := size / 2;
    }
  }

  /** So a shrunk page may be followed like any other: the next read starts where the shown text ends. */
  lemma ShrunkPageFollows(text: string, p: Page, size: nat, next: Page)
    requires PageOf(text, p) && Advances(text, p) && size > 0
    requires
      var shown := Shortened(p, size, |text|);
      PageOf(text, next) && Advances(text, next) && shown.more && next.offset == shown.next
    ensures
      var shown := Shortened(p, size, |text|);
      Follows(text, [shown, next]) && shown.content + next.content == text[p.offset..next.next]
  {
    ShortenedIsPage(text, p, size);
    var shown := Shortened(p, size, |text|);
    assert shown.content == text[shown.offset..shown.next] && next.content == text[shown.next..next.next];
    assert text[shown.offset..shown.next] + text[shown.next..next.next] == text[shown.offset..next.next];
  }

  // ---- fitNotebookTokens ----

  const CUT := " \U{2026}"

  /** Cutting later never makes the text with its mark fit again. */
  ghost predicate MonotoneCuts(text: string, count: string -> nat, target: int) {
    forall n, m | 0 <= n <= m <= |text| && count(text[..m] + CUT) <= target :: count(text[..n] + CUT) <= target
  }

  /** The text is cut at n, and under a monotone ruler every longer cut is over the target. */
  ghost predicate LongestCut(text: string, count: string -> nat, target: int, n: nat) {
    && n <= |text| && (n > 0 ==> count(text[..n] + CUT) <= target)
    && (MonotoneCuts(text, count, target) ==> forall m | n < m <= |text| :: count(text[..m] + CUT) > target)
  }

  /**
   * The notebook is returned whole if it fits, and otherwise cut with a mark: at a length that was measured, or to the mark
   * alone, and under a monotone ruler at the largest that fits.
   */
  method FitNotebook(text: string, count: string -> nat, target: int) returns (r: string)
    ensures count(text) <= target ==> r == text
    ensures count(r) <= target || r == CUT
    ensures count(text) > target ==> exists n: nat :: LongestCut(text, count, target, n) && r == text[..n] + CUT
  {
    if count(text) <= target {
      return text;
    }
    var low, high := 0, |text|;
    while low < high
      invariant 0 <= low <= high <= |text|
      invariant low > 0 ==> count(text[..low] + CUT) <= target
      invariant MonotoneCuts(text, count, target) ==> forall m | high < m <= |text| :: count(text[..m] + CUT) > target
      decreases high - low
    {
      var middle := (low + high + 1) / 2;
      if count(text[..middle] + CUT) <= target {
        low := middle;
      } else {
        high := middle - 1;
      }
    }
    assert low == 0 ==> text[..low] + CUT == CUT;
    assert LongestCut(text, count, target, low);
    return text[..low] + CUT;
  }
}

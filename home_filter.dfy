/** `filterStyles` of frontend/src/pages/Home.jsx: a case-insensitive
    substring search over a style's name and description, then an exact
    category match, each applied only when it is active. Lower-casing is
    that of ASCII letters. */
module HomeFilter {
  import opened Seqs

  /** The fields of a catalogue style that the filter reads. */
  datatype Style = Style(name: string, description: string, category: string)

  /** The category value that switches the category filter off. */
  const All: string := "all"

  predicate IsUpper(c: char) {
    'A' <= c <= 'Z'
  }

  /** `toLowerCase` on one character, restricted to ASCII letters. */
  function LowerChar(c: char): (d: char)
    ensures !IsUpper(d)
    ensures IsUpper(c) ==> d as int - c as int == 'a' as int - 'A' as int
    ensures !IsUpper(c) ==> d == c
  {
    if IsUpper(c) then (c as int + ('a' as int - 'A' as int)) as char else c
  }

  /** `toLowerCase` on a string, restricted to ASCII letters. */
  function ToLower(s: string): (t: string)
    ensures |t| == |s|
    ensures forall i :: 0 <= i < |s| ==> t[i] == LowerChar(s[i])
    ensures forall i :: 0 <= i < |t| ==> !IsUpper(t[i])
  {
    if s == [] then [] else [LowerChar(s[0])] + ToLower(s[1..])
  }

  /** `needle` occurs in `hay` at position `i`. */
  ghost predicate OccursAt(hay: string, needle: string, i: int) {
    0 <= i && i + |needle| <= |hay| && hay[i..i + |needle|] == needle
  }

  /** `hay.includes(needle)`: some position of `hay` starts a copy of
      `needle`; the empty needle occurs everywhere. */
  function Includes(hay: string, needle: string): (b: bool)
    ensures b <==> exists i :: OccursAt(hay, needle, i)
    decreases |hay|
  {
    if |needle| <= |hay| && hay[..|needle|] == needle then
      assert OccursAt(hay, needle, 0);
      true
    else if hay == [] then
      assert forall i :: !OccursAt(hay, needle, i);
      false
    else
      var b := Includes(hay[1..], needle);
      assert b ==> exists i :: OccursAt(hay, needle, i) by {
        if b {
          var i :| OccursAt(hay[1..], needle, i);
          assert hay[1..][i..i + |needle|] == hay[i + 1..i + 1 + |needle|];
          assert OccursAt(hay, needle, i + 1);
        }
      }
      assert (exists i :: OccursAt(hay, needle, i)) ==> b by {
        if exists i :: OccursAt(hay, needle, i) {
          var i :| OccursAt(hay, needle, i);
          assert i != 0;
          assert hay[1..][i - 1..i - 1 + |needle|] == hay[i..i + |needle|];
          assert OccursAt(hay[1..], needle, i - 1);
        }
      }
      b
  }

  /** The search predicate: the lower-cased term inside the lower-cased
      name or description. */
  predicate MatchesSearch(style: Style, term: string) {
    || Includes(ToLower(style.name), ToLower(term))
    || Includes(ToLower(style.description), ToLower(term))
  }

  /** The category predicate: exact, case-sensitive equality. */
  predicate MatchesCategory(style: Style, category: string) {
    style.category == category
  }

  /** What the filter keeps: a style that passes every active predicate.
      The search is active for a non-empty term, the category filter for
      any category other than `"all"`. */
  predicate Keep(style: Style, term: string, category: string) {
    && (term == [] || MatchesSearch(style, term))
    && (category == All || MatchesCategory(style, category))
  }

  /** `Keep` as a predicate value for `Filter`. */
  function Kept(term: string, category: string): Style -> bool {
    (s: Style) => Keep(s, term, category)
  }

  /** `filterStyles`: the search filter when the term is non-empty, then the
      category filter when the category is not `"all"`. */
  function FilterStyles(styles: seq<Style>, term: string, category: string): (r: seq<Style>)
    ensures forall i :: 0 <= i < |r| ==> Keep(r[i], term, category)
    ensures forall x :: multiset(r)[x] == if Keep(x, term, category) then multiset(styles)[x] else 0
    ensures IsSubsequence(r, styles)
    ensures term == [] && category == All ==> r == styles
  {
    var searched := if term != [] then Filter((s: Style) => MatchesSearch(s, term), styles) else styles;
    var r := if category != All then Filter((s: Style) => MatchesCategory(s, category), searched) else searched;
    FilterStylesIsOneFilter(styles, term, category);
    forall x ensures multiset(r)[x] == if Keep(x, term, category) then multiset(styles)[x] else 0 {
      FilterCount(Kept(term, category), styles, x);
    }
    FilterIsSubsequence(Kept(term, category), styles);
    r
  }

  /** The two chained filters are one filter by `Keep`. */
  lemma FilterStylesIsOneFilter(styles: seq<Style>, term: string, category: string)
    ensures
      var searched := if term != [] then Filter((s: Style) => MatchesSearch(s, term), styles) else styles;
      var r := if category != All then Filter((s: Style) => MatchesCategory(s, category), searched) else searched;
      r == Filter(Kept(term, category), styles)
  {
    var search := (s: Style) => MatchesSearch(s, term);
    var cat := (s: Style) => MatchesCategory(s, category);
    var keep := Kept(term, category);
    if term != [] && category != All {
      FilterThenFilter(search, cat, keep, styles);
    } else if term != [] {
      FilterThenFilter(search, (s: Style) => true, keep, styles);
      FilterKeepsAll((s: Style) => true, Filter(search, styles));
    } else if category != All {
      FilterThenFilter((s: Style) => true, cat, keep, styles);
      FilterKeepsAll((s: Style) => true, styles);
    } else {
      FilterKeepsAll(keep, styles);
    }
  }

  /** Filtering the filtered list again with the same term and category
      returns it unchanged. */
  lemma FilterStylesIdempotent(styles: seq<Style>, term: string, category: string)
    ensures FilterStyles(FilterStyles(styles, term, category), term, category) == FilterStyles(styles, term, category)
  {
    var once := FilterStyles(styles, term, category);
    FilterStylesIsOneFilter(styles, term, category);
    FilterStylesIsOneFilter(once, term, category);
    FilterIdempotent(Kept(term, category), styles);
  }
}

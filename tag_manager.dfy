/**
 * Tag suggestions and hashtags. Suggestions combine a category's default
 * tags, keywords from the text and the tags used most in recent memos.
 * Hashtags are `#` followed by letters, digits or `_`; which characters are
 * Unicode letters or digits, and which are punctuation, is passed in as
 * `isLetterOrNumber` and `isPunctuation`.
 */
module TagManager {
  import opened Wrappers
  import opened DataModels
  import opened Seqs
  import Text
  import Sorting
  import DataManager

  const MaxSuggestions: nat := 5
  const MaxPopularTags: nat := 10
  /** Frequent tags are counted over this many most recent memos. */
  const RecentMemoWindow: nat := 100
  const MaxHashtagLength: nat := 20

  const StopWords: set<string> := {"の", "は", "が", "を", "に", "で", "と", "から", "まで", "より",
                                    "です", "である", "する", "した", "します", "ます", "だ"}

  function IsWhitespace(): char -> bool { (c: char) => Text.InSet(c, Text.WhitespacesAndNewlines) }

  function NonEmpty(): string -> bool { (w: string) => w != [] }

  // ---------------------------------------------------------------------------
  // extractKeywords
  // ---------------------------------------------------------------------------

  /** The characters left after dropping those satisfying `p` from the front. */
  function DropLeading(s: string, p: char -> bool): (r: string)
    ensures |r| <= |s|
    ensures r == [] || !p(r[0])
  {
    if s != [] && p(s[0]) then DropLeading(s[1..], p) else s
  }

  /** The characters left after dropping those satisfying `p` from the back. */
  function DropTrailing(s: string, p: char -> bool): (r: string)
    ensures |r| <= |s| && r == s[..|r|]
    ensures r == [] || !p(r[|r| - 1])
  {
    if s != [] && p(s[|s| - 1]) then DropTrailing(s[..|s| - 1], p) else s
  }

  /** `trimmingCharacters(in: .punctuationCharacters)`. */
  function TrimPunctuation(w: string, isPunctuation: char -> bool): (r: string)
    ensures r == [] || (!isPunctuation(r[0]) && !isPunctuation(r[|r| - 1]))
  {
    var d := DropLeading(w, isPunctuation);
    var r := DropTrailing(d, isPunctuation);
    assert r != [] ==> r[0] == d[0];
    r
  }

  function TrimEach(words: seq<string>, isPunctuation: char -> bool): (r: seq<string>)
    ensures |r| == |words| && forall i :: 0 <= i < |r| ==> r[i] == TrimPunctuation(words[i], isPunctuation)
  {
    if words == [] then []
    else
      var rest := TrimEach(words[1..], isPunctuation);
      assert forall i :: 1 <= i < |words| ==> words[i] == words[1..][i - 1];
      [TrimPunctuation(words[0], isPunctuation)] + rest
  }

  /** The words of the text, split at white space and stripped of surrounding punctuation. */
  function Candidates(text: string, isPunctuation: char -> bool): seq<string>
  {
    TrimEach(Text.SplitWhere(text, IsWhitespace()), isPunctuation)
  }

  /** At least two characters and not a stop word. */
  predicate IsKeyword(w: string)
  {
    |w| >= 2 && w !in StopWords
  }

  function Keyword(): string -> bool { (w: string) => IsKeyword(w) }

  /** `extractKeywords`: every keyword among the words, once each, in no particular order. */
  method ExtractKeywords(text: string, isPunctuation: char -> bool) returns (r: seq<string>)
    ensures NoDuplicates(r)
    ensures forall w :: w in r <==> w in Candidates(text, isPunctuation) && IsKeyword(w)
    ensures forall w :: w in r ==> |w| >= 2 && w !in StopWords
  {
    var words := Filter(Candidates(text, isPunctuation), Keyword());
    r := SetToSeq(SetOf(words));
  }

  // ---------------------------------------------------------------------------
  // getFrequentTags
  // ---------------------------------------------------------------------------

  /** Every tag of the memos, in memo order, repeats included (`flatMap`). */
  function AllTagsOf(memos: seq<QuickMemo>): seq<string>
  {
    if memos == [] then [] else memos[0].tags + AllTagsOf(memos[1..])
  }

  /** The tags of the last hundred memos. */
  function RecentTags(memos: seq<QuickMemo>): seq<string>
  {
    AllTagsOf(Suffix(memos, RecentMemoWindow))
  }

  /** How often `t` occurs in `all` (`Dictionary(grouping:)` then `count`). */
  function Uses(all: seq<string>, t: string): nat
  {
    multiset(all)[t]
  }

  /** The use count, negated so that an ascending sort puts the most used first. */
  function ByFrequency(all: seq<string>): string -> int { (t: string) => 0 - Uses(all, t) as int }

  /** The first `n` of a list sorted by key: in key order, and no element left out has a smaller key. */
  lemma TopOfSorted<T>(s: seq<T>, key: T -> int, n: nat)
    requires Sorting.SortedBy(s, key)
    ensures var r := Prefix(s, n);
            (forall i, j :: 0 <= i < j < |r| ==> key(r[i]) <= key(r[j]))
            && (forall t, x :: t in s && t !in r && x in r ==> key(x) <= key(t))
  {
    var r := Prefix(s, n);
    forall t, x | t in s && t !in r && x in r ensures key(x) <= key(t) {
      var k :| 0 <= k < |s| && s[k] == t;
      var i :| 0 <= i < |r| && r[i] == x;
      assert k >= |r|;
    }
  }

  /** The first ten of the distinct tags sorted by descending use are the frequent tags. */
  lemma TopTags(all: seq<string>, distinct: seq<string>, sorted: seq<string>)
    requires NoDuplicates(distinct) && forall t :: t in distinct <==> t in all
    requires multiset(sorted) == multiset(distinct) && Sorting.SortedBy(sorted, ByFrequency(all))
    ensures var r := Prefix(sorted, MaxPopularTags);
            NoDuplicates(r) && (forall t :: t in r ==> t in all)
            && (forall i, j :: 0 <= i < j < |r| ==> Uses(all, r[i]) >= Uses(all, r[j]))
            && (forall t, x :: t in all && t !in r && x in r ==> Uses(all, x) >= Uses(all, t))
            && (|r| < MaxPopularTags ==> forall t :: t in all ==> t in r)
  {
    Sorting.SameMembers(distinct, sorted);
    NoDuplicatesMultiset(distinct);
    NoDuplicatesMultiset(sorted);
    TopOfSorted(sorted, ByFrequency(all), MaxPopularTags);
  }

  /**
   * `getFrequentTags`: the distinct recent tags, most used first, at most
   * ten; a tag left out is used no more often than any tag kept, and fewer
   * than ten come back only when fewer distinct tags were used.
   */
  method GetFrequentTags(memos: seq<QuickMemo>) returns (r: seq<string>)
    ensures |r| <= MaxPopularTags && NoDuplicates(r)
    ensures forall t :: t in r ==> t in RecentTags(memos)
    ensures forall i, j :: 0 <= i < j < |r| ==> Uses(RecentTags(memos), r[i]) >= Uses(RecentTags(memos), r[j])
    ensures forall t, x :: t in RecentTags(memos) && t !in r && x in r ==>
              Uses(RecentTags(memos), x) >= Uses(RecentTags(memos), t)
    ensures |r| < MaxPopularTags ==> forall t :: t in RecentTags(memos) ==> t in r
  {
    var all := RecentTags(memos);
    var distinct := SetToSeq(SetOf(all));
    var sorted := Sorting.SortBy(distinct, ByFrequency(all));
    TopTags(all, distinct, sorted);
    r := Prefix(sorted, MaxPopularTags);
  }

  /** `getCategoryDefaultTags`: the category's default tags, none for an unknown category. */
  function CategoryDefaultTags(dm: DataManager.DataManager, category: string): (r: seq<string>)
    reads dm
    ensures dm.GetCategory(category).Some? ==> r == dm.GetCategory(category).value.defaultTags
    ensures dm.GetCategory(category).None? ==> r == []
  {
    match dm.GetCategory(category)
    case Some(c) => c.defaultTags
    case None => []
  }

  /**
   * A suggestion list that starts with `head`, adds nothing twice after it,
   * and takes everything else from `pool`.
   */
  ghost predicate Extends(suggestions: seq<string>, head: seq<string>, pool: set<string>)
  {
    |head| <= |suggestions| && suggestions[..|head|] == head
    && (forall k :: |head| <= k < |suggestions| ==> suggestions[k] !in suggestions[..k])
    && (forall t :: t in suggestions ==> t in head || t in pool)
  }

  /** The keyword loop: each word of at least two characters not yet suggested is added. */
  method AddWords(suggestions: seq<string>, words: seq<string>, ghost head: seq<string>) returns (r: seq<string>)
    requires Extends(suggestions, head, {})
    ensures Extends(r, head, SetOf(words))
    ensures |r| <= |suggestions| + |words|
    ensures forall w :: w in words && |w| >= 2 ==> w in r
  {
    r := suggestions;
    for i := 0 to |words|
      invariant Extends(r, head, SetOf(words))
      invariant |r| <= |suggestions| + i
      invariant forall w :: w in words[..i] && |w| >= 2 ==> w in r
    {
      var word := words[i];
      assert words[..i + 1] == words[..i] + [word];
      if word !in r && |word| >= 2 {
        r := r + [word];
      }
    }
    assert words[..|words|] == words;
  }

  /** The frequent-tag loop: tags not yet suggested are added until there are five. */
  method AddFrequent(suggestions: seq<string>, tags: seq<string>, ghost head: seq<string>, ghost pool: set<string>)
    returns (r: seq<string>)
    requires Extends(suggestions, head, pool) && |suggestions| <= MaxSuggestions
    ensures Extends(r, head, pool + SetOf(tags))
    ensures |r| <= MaxSuggestions && suggestions <= r
    ensures |r| < MaxSuggestions ==> forall t :: t in tags ==> t in r
  {
    r := suggestions;
    for i := 0 to |tags|
      invariant Extends(r, head, pool + SetOf(tags))
      invariant |r| <= MaxSuggestions && suggestions <= r
      invariant |r| < MaxSuggestions ==> forall t :: t in tags[..i] ==> t in r
    {
      if |r| >= MaxSuggestions {
        break;
      }
      var tag := tags[i];
      assert tags[..i + 1] == tags[..i] + [tag];
      if tag !in r {
        r := r + [tag];
      }
    }
    assert |r| < MaxSuggestions ==> tags[..|tags|] == tags;
  }

  /** A larger pool admits every list a smaller one does. */
  lemma ExtendsWeaken(suggestions: seq<string>, head: seq<string>, pool: set<string>, larger: set<string>)
    requires Extends(suggestions, head, pool) && pool <= larger
    ensures Extends(suggestions, head, larger)
  {
  }

  /** What may follow the category's tags: keywords of the text and recently used tags. */
  ghost function SuggestionPool(text: string, isPunctuation: char -> bool, memos: seq<QuickMemo>): set<string>
  {
    (set w | w in Candidates(text, isPunctuation) && IsKeyword(w)) + SetOf(RecentTags(memos))
  }

  /** Keywords of the text and recent tags all lie in the pool. */
  lemma PoolCovers(text: string, isPunctuation: char -> bool, memos: seq<QuickMemo>,
                   words: seq<string>, tags: seq<string>)
    requires forall w :: w in words ==> w in Candidates(text, isPunctuation) && IsKeyword(w)
    requires forall t :: t in tags ==> t in RecentTags(memos)
    ensures SetOf(words) + SetOf(tags) <= SuggestionPool(text, isPunctuation, memos)
  {
  }

  /**
   * `generateTagSuggestions`: the category's first two default tags, then
   * the new keywords among the first two found in the text, then the most
   * used recent tags not yet suggested, at most five in all, nothing twice
   * after the category's tags.
   */
  method GenerateTagSuggestions(text: string, category: string, dm: DataManager.DataManager,
                                isPunctuation: char -> bool) returns (r: seq<string>)
    ensures |r| <= MaxSuggestions
    ensures Extends(r, Prefix(CategoryDefaultTags(dm, category), 2), SuggestionPool(text, isPunctuation, dm.memos))
    ensures |r| < MaxSuggestions ==> forall t :: t in RecentTags(dm.memos) ==> t in r
    ensures (exists w :: w in Candidates(text, isPunctuation) && IsKeyword(w)) ==>
              exists w :: w in r && w in Candidates(text, isPunctuation) && IsKeyword(w)
  {
    var words := ExtractKeywords(text, isPunctuation);
    var categoryTags := CategoryDefaultTags(dm, category);
    var frequentTags := GetFrequentTags(dm.memos);

    var suggestions := Prefix(categoryTags, 2);
    ghost var head := suggestions;
    var firstWords := Prefix(words, 2);
    suggestions := AddWords(suggestions, firstWords, head);
    ghost var withWords := suggestions;
    suggestions := AddFrequent(suggestions, frequentTags, head, SetOf(firstWords));
    r := Prefix(suggestions, MaxSuggestions);
    assert r == suggestions;
    PoolCovers(text, isPunctuation, dm.memos, firstWords, frequentTags);
    ExtendsWeaken(r, head, SetOf(firstWords) + SetOf(frequentTags), SuggestionPool(text, isPunctuation, dm.memos));
    if |r| < MaxSuggestions {
      // Every frequent tag made it, so there are fewer than five of them and they are all the recent tags.
      NoDuplicatesCovered(frequentTags, r);
    }
    if exists w :: w in Candidates(text, isPunctuation) && IsKeyword(w) {
      // The first keyword is one of the first two words, long enough to be added, and kept by the frequent-tag loop.
      var w :| w in Candidates(text, isPunctuation) && IsKeyword(w);
      assert w in words;
      assert words[0] in firstWords && IsKeyword(words[0]);
      assert words[0] in withWords;
      assert withWords <= r;
    }
  }

  /** The shared tag manager's published lists. */
  class TagManager {
    var suggestionTags: seq<string>
    var popularTags: seq<string>

    constructor()
      ensures suggestionTags == [] && popularTags == []
    {
      suggestionTags := [];
      popularTags := [];
    }

    /**
     * `recordTagUsage`: the recorded tags themselves are not used; the
     * popular tags are recomputed from the memos as `getFrequentTags` does.
     */
    method RecordTagUsage(tags: seq<string>, memos: seq<QuickMemo>)
      modifies this
      ensures |popularTags| <= MaxPopularTags && NoDuplicates(popularTags)
      ensures forall t :: t in popularTags ==> t in RecentTags(memos)
      ensures forall i, j :: 0 <= i < j < |popularTags| ==>
                Uses(RecentTags(memos), popularTags[i]) >= Uses(RecentTags(memos), popularTags[j])
      ensures forall t, x :: t in RecentTags(memos) && t !in popularTags && x in popularTags ==>
                Uses(RecentTags(memos), x) >= Uses(RecentTags(memos), t)
      ensures |popularTags| < MaxPopularTags ==> forall t :: t in RecentTags(memos) ==> t in popularTags
      ensures suggestionTags == old(suggestionTags)
    {
      popularTags := GetFrequentTags(memos);
    }
  }

  // ---------------------------------------------------------------------------
  // Hashtags
  // ---------------------------------------------------------------------------

  /** `[\p{L}\p{N}_]`. */
  predicate IsTagChar(c: char, isLetterOrNumber: char -> bool)
  {
    c == '_' || isLetterOrNumber(c)
  }

  /** The length of the run of tag characters at the start. */
  function TagRun(s: string, isLetterOrNumber: char -> bool): (n: nat)
    ensures n <= |s|
    ensures forall i :: 0 <= i < n ==> IsTagChar(s[i], isLetterOrNumber)
    ensures n < |s| ==> !IsTagChar(s[n], isLetterOrNumber)
  {
    if s != [] && IsTagChar(s[0], isLetterOrNumber) then
      var n := 1 + TagRun(s[1..], isLetterOrNumber);
      assert forall i :: 1 <= i < n ==> s[i] == s[1..][i - 1];
      n
    else 0
  }

  /** A hashtag starts here: `#` directly followed by a tag character. */
  predicate StartsTag(s: string, isLetterOrNumber: char -> bool)
  {
    |s| >= 2 && s[0] == '#' && IsTagChar(s[1], isLetterOrNumber)
  }

  /**
   * The texts after `#` of the matches of `#([\p{L}\p{N}_]+)`, left to
   * right: each takes the longest run, and the search resumes after it.
   */
  function Hashtags(s: string, isLetterOrNumber: char -> bool): (r: seq<string>)
    ensures forall t :: t in r ==> t != [] && forall i :: 0 <= i < |t| ==> IsTagChar(t[i], isLetterOrNumber)
    decreases |s|
  {
    if s == [] then []
    else if StartsTag(s, isLetterOrNumber) then
      var n := TagRun(s[1..], isLetterOrNumber);
      assert forall i :: 0 <= i < n ==> s[1..][..n][i] == s[1..][i];
      [s[1..][..n]] + Hashtags(s[1..][n..], isLetterOrNumber)
    else Hashtags(s[1..], isLetterOrNumber)
  }

  /** `stringByReplacingMatches(… withTemplate: "")` for `#[\p{L}\p{N}_]+`: every match removed. */
  function StripHashtags(s: string, isLetterOrNumber: char -> bool): (r: string)
    decreases |s|
  {
    if s == [] then []
    else if StartsTag(s, isLetterOrNumber) then StripHashtags(s[1..][TagRun(s[1..], isLetterOrNumber)..], isLetterOrNumber)
    else [s[0]] + StripHashtags(s[1..], isLetterOrNumber)
  }

  function ShortTag(): string -> bool { (t: string) => 1 <= |t| <= MaxHashtagLength }

  /** `extractHashtagsFromText`: the matched tags of 1 to 20 characters, once each, in no particular order. */
  method ExtractHashtags(text: string, isLetterOrNumber: char -> bool) returns (r: seq<string>)
    ensures NoDuplicates(r)
    ensures forall t :: t in r <==> t in Hashtags(text, isLetterOrNumber) && |t| <= MaxHashtagLength
    ensures forall t :: t in r ==> 1 <= |t| <= MaxHashtagLength && forall i :: 0 <= i < |t| ==> IsTagChar(t[i], isLetterOrNumber)
  {
    var matches := Hashtags(text, isLetterOrNumber);
    var hashtags: seq<string> := [];
    for i := 0 to |matches|
      invariant forall t :: t in hashtags <==> t in matches[..i] && 1 <= |t| <= MaxHashtagLength
    {
      var hashtag := matches[i];
      assert matches[..i + 1] == matches[..i] + [hashtag];
      if |hashtag| >= 1 && |hashtag| <= MaxHashtagLength {
        hashtags := hashtags + [hashtag];
      }
    }
    assert matches[..|matches|] == matches;
    r := SetToSeq(SetOf(hashtags));
  }

  /** `removeHashtagsFromText`: the hashtags removed, then the remaining words joined by single spaces. */
  function RemoveHashtags(text: string, isLetterOrNumber: char -> bool): string
  {
    Text.Join(Filter(Text.SplitWhere(StripHashtags(text, isLetterOrNumber), IsWhitespace()), NonEmpty()), " ")
  }

  /** No `#` is directly followed by a tag character. */
  predicate NoHashtag(s: string, isLetterOrNumber: char -> bool)
  {
    forall i :: 0 <= i < |s| - 1 && s[i] == '#' ==> !IsTagChar(s[i + 1], isLetterOrNumber)
  }

  /** Text without hashtags has no matches and is left alone by stripping. */
  lemma {:induction false} NoHashtagFixed(s: string, isLetterOrNumber: char -> bool)
    requires NoHashtag(s, isLetterOrNumber)
    ensures Hashtags(s, isLetterOrNumber) == [] && StripHashtags(s, isLetterOrNumber) == s
    decreases |s|
  {
    if s != [] {
      assert !StartsTag(s, isLetterOrNumber);
      assert NoHashtag(s[1..], isLetterOrNumber) by {
        forall i | 0 <= i < |s[1..]| - 1 && s[1..][i] == '#' ensures !IsTagChar(s[1..][i + 1], isLetterOrNumber) {
          assert s[1..][i] == s[i + 1] && s[1..][i + 1] == s[i + 2];
        }
      }
      NoHashtagFixed(s[1..], isLetterOrNumber);
      assert [s[0]] + s[1..] == s;
    }
  }

  /** What stripping leaves starts with a non-tag character when the text did. */
  lemma {:induction false} StripKeepsFirst(s: string, isLetterOrNumber: char -> bool)
    requires s != [] && !IsTagChar(s[0], isLetterOrNumber)
    ensures var r := StripHashtags(s, isLetterOrNumber);
            r == [] || !IsTagChar(r[0], isLetterOrNumber)
    decreases |s|
  {
    if StartsTag(s, isLetterOrNumber) {
      var rest := s[1..][TagRun(s[1..], isLetterOrNumber)..];
      if rest != [] {
        StripKeepsFirst(rest, isLetterOrNumber);
      }
    }
  }

  /** Nothing that could start a hashtag is left after stripping. */
  lemma {:induction false} StripLeavesNoHashtag(s: string, isLetterOrNumber: char -> bool)
    ensures NoHashtag(StripHashtags(s, isLetterOrNumber), isLetterOrNumber)
    decreases |s|
  {
    if s == [] {
    } else if StartsTag(s, isLetterOrNumber) {
      StripLeavesNoHashtag(s[1..][TagRun(s[1..], isLetterOrNumber)..], isLetterOrNumber);
    } else {
      var tail := StripHashtags(s[1..], isLetterOrNumber);
      StripLeavesNoHashtag(s[1..], isLetterOrNumber);
      if s[0] == '#' && tail != [] {
        assert |s| >= 2 && !IsTagChar(s[1], isLetterOrNumber);
        StripKeepsFirst(s[1..], isLetterOrNumber);
      }
      NoHashtagConcat([s[0]], tail, isLetterOrNumber);
    }
  }

  /** Two texts without hashtags make one, unless the first ends in `#` and the second starts a tag. */
  lemma NoHashtagConcat(a: string, b: string, isLetterOrNumber: char -> bool)
    requires NoHashtag(a, isLetterOrNumber) && NoHashtag(b, isLetterOrNumber)
    requires a != [] && a[|a| - 1] == '#' && b != [] ==> !IsTagChar(b[0], isLetterOrNumber)
    ensures NoHashtag(a + b, isLetterOrNumber)
  {
    var s := a + b;
    forall i | 0 <= i < |s| - 1 && s[i] == '#' ensures !IsTagChar(s[i + 1], isLetterOrNumber) {
      if i + 1 < |a| {
        assert s[i] == a[i] && s[i + 1] == a[i + 1];
      } else if i + 1 == |a| {
        assert s[i] == a[|a| - 1] && s[i + 1] == b[0];
      } else {
        assert s[i] == b[i - |a|] && s[i + 1] == b[i - |a| + 1];
      }
    }
  }

  /** The first piece of a split starts with the text's first character, when it has one. */
  lemma FirstPieceHead(s: string, p: char -> bool)
    ensures var pieces := Text.SplitWhere(s, p);
            pieces[0] != [] ==> s != [] && !p(s[0]) && pieces[0][0] == s[0]
  {
  }

  /** The pieces of a text without hashtags have none. */
  lemma {:induction false} PiecesNoHashtag(s: string, p: char -> bool, isLetterOrNumber: char -> bool)
    requires NoHashtag(s, isLetterOrNumber)
    ensures forall k :: 0 <= k < |Text.SplitWhere(s, p)| ==> NoHashtag(Text.SplitWhere(s, p)[k], isLetterOrNumber)
    decreases |s|
  {
    if s != [] {
      var rest := Text.SplitWhere(s[1..], p);
      assert NoHashtag(s[1..], isLetterOrNumber) by {
        forall i | 0 <= i < |s[1..]| - 1 && s[1..][i] == '#' ensures !IsTagChar(s[1..][i + 1], isLetterOrNumber) {
          assert s[1..][i] == s[i + 1] && s[1..][i + 1] == s[i + 2];
        }
      }
      PiecesNoHashtag(s[1..], p, isLetterOrNumber);
      if !p(s[0]) {
        FirstPieceHead(s[1..], p);
        if s[0] == '#' && rest[0] != [] {
          assert s[1] == s[1..][0];
        }
        NoHashtagConcat([s[0]], rest[0], isLetterOrNumber);
      }
    }
  }

  /** Joining texts without hashtags by spaces makes none, a space not being a tag character. */
  lemma {:induction false} JoinNoHashtag(parts: seq<string>, isLetterOrNumber: char -> bool)
    requires !isLetterOrNumber(' ')
    requires forall k :: 0 <= k < |parts| ==> NoHashtag(parts[k], isLetterOrNumber)
    ensures NoHashtag(Text.Join(parts, " "), isLetterOrNumber)
    decreases |parts|
  {
    if |parts| > 1 {
      JoinNoHashtag(parts[1..], isLetterOrNumber);
      NoHashtagConcat(parts[0], " ", isLetterOrNumber);
      NoHashtagConcat(parts[0] + " ", Text.Join(parts[1..], " "), isLetterOrNumber);
    }
  }

  /** After `removeHashtagsFromText` no hashtag is left to extract. */
  lemma RemoveHashtagsLeavesNone(text: string, isLetterOrNumber: char -> bool)
    requires !isLetterOrNumber(' ')
    ensures NoHashtag(RemoveHashtags(text, isLetterOrNumber), isLetterOrNumber)
    ensures Hashtags(RemoveHashtags(text, isLetterOrNumber), isLetterOrNumber) == []
  {
    var stripped := StripHashtags(text, isLetterOrNumber);
    StripLeavesNoHashtag(text, isLetterOrNumber);
    var pieces := Text.SplitWhere(stripped, IsWhitespace());
    PiecesNoHashtag(stripped, IsWhitespace(), isLetterOrNumber);
    var words := Filter(pieces, NonEmpty());
    forall k | 0 <= k < |words| ensures NoHashtag(words[k], isLetterOrNumber) {
      assert words[k] in pieces;
    }
    JoinNoHashtag(words, isLetterOrNumber);
    NoHashtagFixed(RemoveHashtags(text, isLetterOrNumber), isLetterOrNumber);
  }

  /** Removing hashtags a second time changes nothing. */
  lemma RemoveHashtagsIdempotent(text: string, isLetterOrNumber: char -> bool)
    requires !isLetterOrNumber(' ')
    ensures RemoveHashtags(RemoveHashtags(text, isLetterOrNumber), isLetterOrNumber) == RemoveHashtags(text, isLetterOrNumber)
  {
    var once := RemoveHashtags(text, isLetterOrNumber);
    RemoveHashtagsLeavesNone(text, isLetterOrNumber);
    NoHashtagFixed(once, isLetterOrNumber);
    var words := Filter(Text.SplitWhere(StripHashtags(text, isLetterOrNumber), IsWhitespace()), NonEmpty());
    assert once == Text.Join(words, " ");
    if words == [] {
      assert Text.SplitWhere("", IsWhitespace()) == [""];
      assert Filter([""], NonEmpty()) == [];
    } else {
      forall k, i | 0 <= k < |words| && 0 <= i < |words[k]| ensures !IsWhitespace()(words[k][i]) {
        assert words[k] in Text.SplitWhere(StripHashtags(text, isLetterOrNumber), IsWhitespace());
      }
      assert IsWhitespace()(' ');
      Text.SplitWhereJoin(words, ' ', IsWhitespace());
      FilterAllPass(words, NonEmpty());
    }
  }
}

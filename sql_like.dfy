/**
 * SQLite's `LIKE` operator with its default settings: `%` matches any run
 * of characters, `_` any one character, and letters are compared without
 * regard to ASCII case. No escape character is used.
 */
module SqlLike {
  import Text

  function FoldAscii(c: char): char
  {
    if 'A' <= c <= 'Z' then (c as int + 32) as char else c
  }

  function Fold(s: string): (r: string)
    ensures |r| == |s| && forall i :: 0 <= i < |s| ==> r[i] == FoldAscii(s[i])
  {
    seq(|s|, i requires 0 <= i < |s| => FoldAscii(s[i]))
  }

  /** `value LIKE pattern`. */
  predicate Like(value: string, pattern: string)
    decreases |pattern|, |value|
  {
    if pattern == [] then value == []
    else if pattern[0] == '%' then Like(value, pattern[1..]) || (value != [] && Like(value[1..], pattern))
    else value != [] && (pattern[0] == '_' || FoldAscii(pattern[0]) == FoldAscii(value[0]))
         && Like(value[1..], pattern[1..])
  }

  predicate NoWildcards(t: string)
  {
    forall i :: 0 <= i < |t| ==> t[i] != '%' && t[i] != '_'
  }

  /** A trailing `%` pattern matches exactly the values that start with the literal part. */
  lemma {:induction false} LikePrefix(value: string, t: string)
    requires NoWildcards(t)
    ensures Like(value, t + "%") <==> Text.HasPrefix(Fold(value), Fold(t))
    decreases |t|
  {
    if t == [] {
      assert t + "%" == "%";
      LikeAnything(value);
    } else {
      assert (t + "%")[1..] == t[1..] + "%";
      if value != [] {
        LikePrefix(value[1..], t[1..]);
        assert Fold(value)[1..] == Fold(value[1..]);
        assert Fold(t)[1..] == Fold(t[1..]);
        if Text.HasPrefix(Fold(value), Fold(t)) {
          assert Fold(value)[0] == Fold(t)[0];
        }
        if Like(value, t + "%") {
          assert Fold(value)[..|Fold(t)|] == [Fold(value)[0]] + Fold(value)[1..][..|Fold(t)| - 1];
        }
      }
    }
  }

  lemma {:induction false} LikeAnything(value: string)
    ensures Like(value, "%")
    decreases |value|
  {
    if value != [] {
      LikeAnything(value[1..]);
    }
  }

  /** A leading `%` lets the rest of the pattern match at any suffix. */
  lemma {:induction false} LikeAnySuffix(value: string, q: string, j: nat)
    requires j <= |value| && Like(value[j..], q)
    ensures Like(value, "%" + q)
    decreases j
  {
    assert ("%" + q)[1..] == q;
    if j > 0 {
      LikeAnySuffix(value[1..], q, j - 1);
      assert value[1..][j - 1..] == value[j..];
    }
  }

  lemma {:induction false} LikeSomeSuffix(value: string, q: string) returns (j: nat)
    requires Like(value, "%" + q)
    ensures j <= |value| && Like(value[j..], q)
    decreases |value|
  {
    assert ("%" + q)[1..] == q;
    if Like(value, q) {
      j := 0;
    } else {
      var j' := LikeSomeSuffix(value[1..], q);
      assert value[1..][j'..] == value[j' + 1..];
      j := j' + 1;
    }
  }

  /**
   * The extractor's pattern `%term%` matches exactly the values that
   * contain `term`, ignoring ASCII case, when the term has no wildcards.
   */
  lemma LikeContains(value: string, term: string)
    requires NoWildcards(term)
    ensures Like(value, "%" + term + "%") <==> Text.Contains(Fold(value), Fold(term))
  {
    assert "%" + term + "%" == "%" + (term + "%");
    if Like(value, "%" + term + "%") {
      var j := LikeSomeSuffix(value, term + "%");
      LikePrefix(value[j..], term);
      assert Fold(value[j..]) == Fold(value)[j..];
    }
    if Text.Contains(Fold(value), Fold(term)) {
      var j := Text.IndexOf(Fold(value), Fold(term)).value;
      assert Fold(value[j..]) == Fold(value)[j..];
      LikePrefix(value[j..], term);
      LikeAnySuffix(value, term + "%", j);
    }
  }
}

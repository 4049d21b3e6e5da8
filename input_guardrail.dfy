/**
 * The main keyword input guardrail: the lower-cased input is split on runs of non-word
 * characters and the first token found in the (mutable) banned-word set is reported.
 */
module InputGuardrail {
  import opened Wrappers
  import opened Seqs
  import opened Text

  datatype GuardrailResult = GuardrailResult(safe: bool, reason: Option<string>)

  /** The banned words a fresh guardrail starts with, in insertion order. */
  const DefaultSensitiveWords: seq<string> := ["kill", "evil"]

  /** `input.toLowerCase().split(/\W+/)`. */
  function Tokens(input: string): (r: seq<string>)
    ensures |r| >= 1
    ensures forall k :: 0 <= k < |r| ==> NoSep(r[k], false)
  {
    Split(Lower(input), false)
  }

  /** What `validate` reports for `input` against the banned set `banned`. */
  function Verdict(banned: set<string>, input: string): (r: GuardrailResult)
    ensures !r.safe <==> exists k :: 0 <= k < |Tokens(input)| && Tokens(input)[k] in banned
    ensures r.safe ==> r.reason == None
    ensures !r.safe ==>
      exists k :: && 0 <= k < |Tokens(input)| && Tokens(input)[k] in banned
                  && r.reason == Some(DetectedPrefix + Tokens(input)[k])
                  && forall j :: 0 <= j < k ==> Tokens(input)[j] !in banned
  {
    var tokens := Tokens(input);
    match FirstMember(tokens, banned)
    case None => GuardrailResult(true, None)
    case Some(k) => GuardrailResult(false, Some(DetectedPrefix + tokens[k]))
  }

  /** Lower-casing the input first changes nothing: matching is case-insensitive. */
  lemma VerdictIgnoresCase(banned: set<string>, input: string)
    ensures Verdict(banned, Lower(input)) == Verdict(banned, input)
  {
    LowerIdempotent(input);
  }

  /** Lower-casing keeps every character in its class, so it keeps a word a word. */
  lemma LowerKeepsNoSep(s: string, wordSeps: bool)
    requires NoSep(s, wordSeps)
    ensures NoSep(Lower(s), wordSeps)
  {
    forall i | 0 <= i < |s|
      ensures !IsSep(Lower(s)[i], wordSeps)
    {
      assert Lower(s)[i] == LowerChar(s[i]);
    }
  }

  /**
   * A banned word standing on its own, between non-word characters or the ends of the
   * input and in any letter case, makes the input unsafe.
   */
  lemma WholeWordFlagged(banned: set<string>, a: string, w: string, b: string)
    requires w != [] && NoSep(w, false) && Lower(w) in banned
    requires a == [] || IsSep(a[|a| - 1], false)
    requires b == [] || IsSep(b[0], false)
    ensures !Verdict(banned, a + w + b).safe
  {
    var la, lw, lb := Lower(a), Lower(w), Lower(b);
    assert lw in Split(la + (lw + lb), false) by {
      LowerKeepsBoundaries(a, b);
      LowerKeepsNoSep(w, false);
      WordIsPiece(la, lw, lb, false);
    }
    var tokens := Tokens(a + w + b);
    assert tokens == Split(la + (lw + lb), false) by {
      LowerOfThree(a, w, b);
    }
    var k :| 0 <= k < |tokens| && tokens[k] == lw;
  }

  lemma LowerOfThree(a: string, w: string, b: string)
    ensures Lower(a + w + b) == Lower(a) + (Lower(w) + Lower(b))
  {
    ConcatAssoc(a, w, b);
    LowerConcat(a, w + b);
    LowerConcat(w, b);
  }

  /** Lower-casing keeps a separator at the end of `a` and at the start of `b`. */
  lemma LowerKeepsBoundaries(a: string, b: string)
    requires a == [] || IsSep(a[|a| - 1], false)
    requires b == [] || IsSep(b[0], false)
    ensures Lower(a) == [] || IsSep(Lower(a)[|Lower(a)| - 1], false)
    ensures Lower(b) == [] || IsSep(Lower(b)[0], false)
  {
    if a != [] { assert Lower(a)[|a| - 1] == LowerChar(a[|a| - 1]); }
    if b != [] { assert Lower(b)[0] == LowerChar(b[0]); }
  }

  /**
   * An input with no non-word character is one token: it is unsafe exactly when, lower-cased,
   * it is itself banned. A banned word inside a longer word is not found.
   */
  lemma SingleTokenVerdict(banned: set<string>, input: string)
    requires NoSep(input, false)
    ensures Verdict(banned, input).safe <==> Lower(input) !in banned
  {
    LowerKeepsNoSep(input, false);
    OnePiece(Lower(input), false);
  }

  /** "skilled" contains "kill" but is not flagged by the default set. */
  lemma SubstringNotFlagged()
    ensures Verdict({"kill", "evil"}, "skilled").safe
  {
    var s := "skilled";
    assert forall i :: 0 <= i < |s| ==> 'a' <= s[i] <= 'z';
    LowerOfLowercase(s);
    SingleTokenVerdict({"kill", "evil"}, s);
  }

  class SafeInputGuardrail {
    /** The banned words, each once, in insertion order (a JS `Set`). */
    var sensitiveWords: seq<string>

    ghost predicate Valid()
      reads this
    {
      NoDuplicates(sensitiveWords)
    }

    /** The banned words as a set. */
    function Banned(): (r: set<string>)
      reads this
      ensures forall w :: w in r <==> w in sensitiveWords
    {
      set w | w in sensitiveWords
    }

    constructor ()
      ensures Valid() && sensitiveWords == DefaultSensitiveWords
      ensures Banned() == {"kill", "evil"}
    {
      sensitiveWords := DefaultSensitiveWords;
    }

    /** `validate`: scan the tokens left to right and stop at the first banned one. */
    method Validate(input: string) returns (r: GuardrailResult)
      ensures r == Verdict(Banned(), input)
    {
      var words := Split(Lower(input), false);
      var banned := Banned();
      var i := 0;
      while i < |words|
        invariant 0 <= i <= |words|
        invariant forall j :: 0 <= j < i ==> words[j] !in banned
      {
        if words[i] in banned {
          assert FirstMember(words, banned) == Some(i);
          return GuardrailResult(false, Some(DetectedPrefix + words[i]));
        }
        i := i + 1;
      }
      return GuardrailResult(true, None);
    }

    /** `addSensitiveWord`: ban the lower-cased word. */
    method AddSensitiveWord(word: string)
      requires Valid()
      modifies this
      ensures Valid()
      ensures sensitiveWords == if Lower(word) in old(sensitiveWords) then old(sensitiveWords)
                                else old(sensitiveWords) + [Lower(word)]
      ensures Banned() == old(Banned()) + {Lower(word)}
    {
      var w := Lower(word);
      if w !in sensitiveWords {
        sensitiveWords := sensitiveWords + [w];
      }
    }

    /** `removeSensitiveWord`: unban the lower-cased word and only it. */
    method RemoveSensitiveWord(word: string)
      requires Valid()
      modifies this
      ensures Valid()
      ensures sensitiveWords == RemoveFirst(old(sensitiveWords), Lower(word))
      ensures Banned() == old(Banned()) - {Lower(word)}
    {
      ghost var before := Banned();
      var w := Lower(word);
      RemoveFirstMembers(sensitiveWords, w);
      sensitiveWords := RemoveFirst(sensitiveWords, w);
      assert Banned() == before - {w};
    }

    /** `getSensitiveWords`: the banned words, each once, in insertion order. */
    method GetSensitiveWords() returns (words: seq<string>)
      requires Valid()
      ensures NoDuplicates(words)
      ensures forall w :: w in words <==> w in Banned()
      ensures words == sensitiveWords
    {
      words := sensitiveWords;
    }
  }
}

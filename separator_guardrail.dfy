/**
 * The alternate TS input guardrail: it splits the lower-cased input on runs of WORD
 * characters, so its pieces are the separator runs between words. It collects a failure
 * for every piece in its banned set, and always reports the input as safe.
 */
module SeparatorGuardrail {
  import opened Text
  import InputGuardrail

  datatype GuardrailResult = GuardrailResult(safe: bool, failures: seq<string>)

  /** The fixed banned-word set. */
  const SensitiveWords: set<string> := {"fuck", "fucker", "motherfucker"}

  /** `input.toLowerCase().split(/\w+/)`: the non-word runs, possibly empty. */
  function Pieces(input: string): (r: seq<string>)
    ensures |r| >= 1
    ensures forall k :: 0 <= k < |r| ==> NoSep(r[k], true)
  {
    Split(Lower(input), true)
  }

  /** One failure message per piece in `banned`, in piece order. */
  function Failures(pieces: seq<string>, banned: set<string>): (r: seq<string>)
    ensures |r| <= |pieces|
    ensures forall x :: x in r ==> exists t :: t in pieces && t in banned && x == DetectedPrefix + t
    ensures forall t :: t in pieces && t in banned ==> DetectedPrefix + t in r
  {
    if pieces == [] then []
    else
      var last := pieces[|pieces| - 1];
      var front := pieces[..|pieces| - 1];
      assert pieces == front + [last];
      Failures(front, banned) + (if last in banned then [DetectedPrefix + last] else [])
  }

  /** Scanning one more piece appends its failure, if it is banned. */
  lemma FailuresStep(pieces: seq<string>, i: nat, banned: set<string>)
    requires i < |pieces|
    ensures Failures(pieces[..i + 1], banned)
            == Failures(pieces[..i], banned) + (if pieces[i] in banned then [DetectedPrefix + pieces[i]] else [])
  {
    assert pieces[..i + 1][..i] == pieces[..i];
  }

  /** No piece made only of non-word characters is a word containing a word character. */
  lemma {:induction false} NoFailuresWithoutSeparatorWords(pieces: seq<string>, banned: set<string>)
    requires forall k :: 0 <= k < |pieces| ==> NoSep(pieces[k], true)
    requires forall w :: w in banned ==> !NoSep(w, true)
    ensures Failures(pieces, banned) == []
    decreases |pieces|
  {
    if pieces != [] {
      var front := pieces[..|pieces| - 1];
      NoFailuresWithoutSeparatorWords(front, banned);
      assert NoSep(pieces[|pieces| - 1], true);
    }
  }

  /** Every banned word has a word character, so `failures` is empty for every input. */
  lemma FailuresAlwaysEmpty(input: string)
    ensures Failures(Pieces(input), SensitiveWords) == []
  {
    forall w | w in SensitiveWords
      ensures !NoSep(w, true)
    {
      assert IsWordChar(w[0]);
    }
    NoFailuresWithoutSeparatorWords(Pieces(input), SensitiveWords);
  }

  /**
   * The discrepancy: any banned word sent on its own, in any letter case, passes the
   * guardrail as written with no failure, while the intended guardrail rejects it.
   */
  lemma BannedWordPassesAsWritten(w: string)
    requires w != [] && NoSep(w, false) && Lower(w) in SensitiveWords
    ensures Failures(Pieces(w), SensitiveWords) == []
    ensures !IntendedValidate(w).safe
  {
    FailuresAlwaysEmpty(w);
    assert !IntendedValidate(w).safe by {
      assert [] + w + [] == w;
      IntendedFlagsWholeWord([], w, []);
    }
  }

  /**
   * The evident intent: split on runs of NON-word characters (as the main guardrail does),
   * collect one failure per banned token, and report unsafe when there is any failure.
   */
  function IntendedValidate(input: string): (r: GuardrailResult)
    ensures r.safe <==> r.failures == []
  {
    var failures := Failures(InputGuardrail.Tokens(input), SensitiveWords);
    GuardrailResult(failures == [], failures)
  }

  /** The corrected guardrail and the main guardrail agree on which inputs are safe. */
  lemma IntendedAgreesWithMain(input: string)
    ensures IntendedValidate(input).safe == InputGuardrail.Verdict(SensitiveWords, input).safe
  {
    var tokens := InputGuardrail.Tokens(input);
    var failures := IntendedValidate(input).failures;
    if failures != [] {
      assert failures[0] in failures;
    }
    if !InputGuardrail.Verdict(SensitiveWords, input).safe {
      var k :| 0 <= k < |tokens| && tokens[k] in SensitiveWords;
      assert DetectedPrefix + tokens[k] in IntendedValidate(input).failures;
    }
  }

  /** With the correction, a banned word standing on its own, in any letter case, is rejected. */
  lemma IntendedFlagsWholeWord(a: string, w: string, b: string)
    requires w != [] && NoSep(w, false) && Lower(w) in SensitiveWords
    requires a == [] || IsSep(a[|a| - 1], false)
    requires b == [] || IsSep(b[0], false)
    ensures !IntendedValidate(a + w + b).safe
  {
    InputGuardrail.WholeWordFlagged(SensitiveWords, a, w, b);
    IntendedAgreesWithMain(a + w + b);
  }

  class SafeInputGuardrail {
    /** The banned set; never modified. */
    const sensitiveWords: set<string>

    constructor ()
      ensures sensitiveWords == SensitiveWords
    {
      sensitiveWords := SensitiveWords;
    }

    /** `validate`: push one failure per banned piece; `safe` stays true. */
    method Validate(input: string) returns (r: GuardrailResult)
      ensures r.safe
      ensures r.failures == Failures(Pieces(input), sensitiveWords)
    {
      var safe := true;
      var failures: seq<string> := [];
      var words := Split(Lower(input), true);
      var i := 0;
      while i < |words|
        invariant 0 <= i <= |words|
        invariant failures == Failures(words[..i], sensitiveWords)
      {
        FailuresStep(words, i, sensitiveWords);
        if words[i] in sensitiveWords {
          failures := failures + [DetectedPrefix + words[i]];
        }
        i := i + 1;
      }
      assert words[..i] == words;
      r := GuardrailResult(safe, failures);
    }
  }
}

/**
 * The Java input guardrail: the lower-cased text is split with `String.split("\\W+")` and
 * the first token in a fixed banned set makes the result fatal.
 */
module JavaGuardrail {
  import opened Text

  datatype InputGuardrailResult = Success | Fatal(message: string)

  /** The immutable banned-word set. */
  const SensitiveWords: set<string> := {"fuck", "fucker", "motherfucker"}

  /** `t` without its trailing empty strings. */
  function DropTrailingEmpty(t: seq<string>): (r: seq<string>)
    ensures |r| <= |t| && r == t[..|r|]
    ensures r == [] || r[|r| - 1] != ""
    ensures forall i :: |r| <= i < |t| ==> t[i] == ""
  {
    if t == [] || t[|t| - 1] != "" then t else DropTrailingEmpty(t[..|t| - 1])
  }

  /**
   * `s.split("\\W+")`: the whole string when nothing matches, otherwise the pieces between
   * matches with trailing empty pieces removed (a leading empty piece is kept).
   */
  function JavaSplit(s: string): (r: seq<string>)
    ensures forall k :: 0 <= k < |r| ==> NoSep(r[k], false)
  {
    if NoSep(s, false) then [s] else DropTrailingEmpty(Split(s, false))
  }

  /** The tokens `validate` scans. */
  function Tokens(text: string): seq<string> {
    JavaSplit(Lower(text))
  }

  /** `validate`: fatal with the first banned token, success when there is none. */
  function Validate(text: string): (r: InputGuardrailResult)
    ensures r.Fatal? <==> exists k :: 0 <= k < |Tokens(text)| && Tokens(text)[k] in SensitiveWords
    ensures r.Fatal? ==>
      exists k :: && 0 <= k < |Tokens(text)| && Tokens(text)[k] in SensitiveWords
                  && r.message == DetectedPrefix + Tokens(text)[k]
                  && forall j :: 0 <= j < k ==> Tokens(text)[j] !in SensitiveWords
  {
    var tokens := Tokens(text);
    match FirstMember(tokens, SensitiveWords)
    case None => Success
    case Some(k) => Fatal(DetectedPrefix + tokens[k])
  }

  /** Dropping trailing empty tokens cannot change the first banned token unless "" is banned. */
  lemma {:induction false} FirstMemberIgnoresTrailingEmpty(t: seq<string>, banned: set<string>)
    requires "" !in banned
    ensures FirstMember(DropTrailingEmpty(t), banned) == FirstMember(t, banned)
    decreases |t|
  {
    if t != [] && t[|t| - 1] == "" {
      var front := t[..|t| - 1];
      FirstMemberIgnoresTrailingEmpty(front, banned);
      FirstMemberOfPrefix(t, front, banned);
    }
  }

  /** Appending tokens outside `banned` does not change the first banned token. */
  lemma FirstMemberOfPrefix(t: seq<string>, front: seq<string>, banned: set<string>)
    requires |front| <= |t| && front == t[..|front|]
    requires forall i :: |front| <= i < |t| ==> t[i] !in banned
    ensures FirstMember(front, banned) == FirstMember(t, banned)
  {
    match FirstMember(t, banned)
    case None =>
    case Some(k) =>
      assert t[k] == front[k];
  }

  /**
   * The Java guardrail decides exactly like a `/\W+/` split in JavaScript would (as long as
   * the empty word is not banned, which it is not).
   */
  lemma {:induction false} AgreesWithJsSplit(text: string)
    ensures Validate(text) == match FirstMember(Split(Lower(text), false), SensitiveWords)
                              case None => Success
                              case Some(k) => Fatal(DetectedPrefix + Split(Lower(text), false)[k])
  {
    var s := Lower(text);
    if NoSep(s, false) {
      OnePiece(s, false);
    } else {
      FirstMemberIgnoresTrailingEmpty(Split(s, false), SensitiveWords);
    }
  }

  /** Empty text is a success. */
  lemma EmptyTextSucceeds()
    ensures Validate("") == Success
  {
    assert Tokens("") == [""];
  }

  /** Matching is case-insensitive. */
  lemma ValidateIgnoresCase(text: string)
    ensures Validate(Lower(text)) == Validate(text)
  {
    LowerIdempotent(text);
  }
}

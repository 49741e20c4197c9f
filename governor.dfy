/** The budget governor: the four configured size limits, the soft truncation
    rule applied to every piece of text, and the hard ceiling on a corpus. */
module Governor {
  import opened Wrappers
  import opened Strings

  /** The configuration values the governor reads (the rest of the settings
      object is transport and credentials, outside this model). */
  datatype Settings = Settings(
    maxTotalChars: nat,
    chunkChars: nat,
    maxPartials: nat,
    maxHistoryMsgs: nat,
    synthModel: string,
    chatModel: string)

  /** The configuration used when no environment variable overrides it. */
  const DefaultSettings := Settings(120000, 12000, 12, 12, "llama-3.3-70b-versatile", "llama-3.3-70b-versatile")

  /** The immutable budget record handed to the pipeline and the chat service. */
  datatype Budgets = Budgets(maxTotalChars: nat, chunkChars: nat, maxPartials: nat, maxHistoryMsgs: nat)

  /** Reason carried by a rejected corpus (HTTP 413). */
  datatype PayloadError = PayloadTooLarge

  function GetBudgets(s: Settings): (b: Budgets)
    ensures b.maxTotalChars == s.maxTotalChars && b.chunkChars == s.chunkChars
    ensures b.maxPartials == s.maxPartials && b.maxHistoryMsgs == s.maxHistoryMsgs
  {
    Budgets(s.maxTotalChars, s.chunkChars, s.maxPartials, s.maxHistoryMsgs)
  }

  /** Strip, then hard-truncate to `limit` characters; an absent text is "". */
  function EnforceMaxChars(text: Option<string>, limit: nat): (r: string)
    ensures text.None? ==> r == ""
    ensures |r| <= limit
    ensures text.Some? ==> r <= Strip(text.value)
    ensures text.Some? ==> |r| == if |Strip(text.value)| <= limit then |Strip(text.value)| else limit
    ensures text.Some? && |Strip(text.value)| <= limit ==> r == Strip(text.value)
  {
    match text
    case None => ""
    case Some(s) =>
      var t := Strip(s);
      if |t| > limit then t[..limit] else t
  }

  /** A non-blank text keeps a non-blank, non-space-led result under any
      positive limit; a blank one always yields "". */
  lemma EnforceNonBlank(text: string, limit: nat)
    ensures Blank(text) || limit == 0 ==> EnforceMaxChars(Some(text), limit) == ""
    ensures !Blank(text) && limit > 0 ==>
      var r := EnforceMaxChars(Some(text), limit);
      r != [] && !IsSpace(r[0]) && !Blank(r)
  {
  }

  /** Truncation can expose whitespace at the cut, so a truncated result is not
      necessarily stripped: a second `.strip()` (as the pipeline does) still
      changes it. */
  lemma EnforceMayEndInSpace(a: char, sp: char, b: char)
    requires !IsSpace(a) && IsSpace(sp) && !IsSpace(b)
    ensures EnforceMaxChars(Some([a, sp, b]), 2) == [a, sp]
    ensures Strip(EnforceMaxChars(Some([a, sp, b]), 2)) == [a]
  {
    var t := [a, sp, b];
    StripKeepsTrimmed(t);
    assert t[..2] == [a, sp];
    var u := [a, sp];
    StripFromNonSpace(u);
    assert u[..1] == [a];
  }

  /** Rejects a corpus longer than twice the total-character budget. */
  function GuardPayloadSize(totalChars: nat, maxTotalChars: nat): (r: Outcome<PayloadError>)
    ensures r.Fail? <==> totalChars > 2 * maxTotalChars
  {
    if totalChars > maxTotalChars * 2 then Fail(PayloadTooLarge) else Pass
  }

  /** Under the default configuration the chunk size is positive, so a corpus
      can be cut, and the hard ceiling sits at 240000 characters. */
  lemma DefaultCeiling()
    ensures DefaultSettings.chunkChars > 0
    ensures GuardPayloadSize(240000, GetBudgets(DefaultSettings).maxTotalChars) == Pass
    ensures GuardPayloadSize(240001, GetBudgets(DefaultSettings).maxTotalChars).Fail?
  {
  }

  /** The ceiling is inclusive: exactly twice the budget passes, one more fails. */
  lemma GuardBoundary(maxTotalChars: nat)
    ensures GuardPayloadSize(2 * maxTotalChars, maxTotalChars) == Pass
    ensures GuardPayloadSize(2 * maxTotalChars + 1, maxTotalChars).Fail?
  {
  }
}

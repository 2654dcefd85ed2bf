/** What MailX may conclude from the payment gateway's replies. */
module Paystack {
  import opened Options

  datatype Op = ChargeAuthorization | VerifyTransaction

  datatype Outcome = Unknown | Succeeded | Failed

  /** `decoded`: the body was a JSON envelope; `ok` is its status field. */
  datatype Reply =
    | NoReply
    | Reply(code: nat, decoded: bool, ok: bool, status: string, amount: int, currency: string)

  datatype Result = Result(outcome: Outcome, amount: int, currency: string)

  const CURRENCY := "USD"

  /** strings.ToLower, as far as it can produce an ASCII letter: besides A to Z
      only U+0130 and U+212A do. */
  function LowerChar(c: char): char {
    if 'A' <= c <= 'Z' then c - 'A' + 'a'
    else if c == '\U{0130}' then 'i'
    else if c == '\U{212A}' then 'k'
    else c
  }

  function ToLower(s: string): string
    decreases |s|
  {
    if s == "" then "" else [LowerChar(s[0])] + ToLower(s[1..])
  }

  /** strings.EqualFold, as far as an ASCII letter is involved: besides the two
      cases, U+017F folds to s and U+212A to k. */
  function FoldChar(c: char): char {
    if 'A' <= c <= 'Z' then c - 'A' + 'a'
    else if c == '\U{017F}' then 's'
    else if c == '\U{212A}' then 'k'
    else c
  }

  predicate EqualFold(s: string, t: string) {
    |s| == |t| && forall i :: 0 <= i < |s| ==> FoldChar(s[i]) == FoldChar(t[i])
  }

  /** USD in any case; the long s is an s. */
  predicate IsDollars(x: string) {
    && |x| == 3 && (x[0] == 'U' || x[0] == 'u')
    && (x[1] == 'S' || x[1] == 's' || x[1] == '\U{017F}') && (x[2] == 'D' || x[2] == 'd')
  }

  lemma CurrencyIs(x: string)
    ensures EqualFold(x, CURRENCY) <==> IsDollars(x)
  {
    if |x| == 3 {
      assert EqualFold(x, CURRENCY) <==>
        FoldChar(x[0]) == FoldChar(CURRENCY[0]) && FoldChar(x[1]) == FoldChar(CURRENCY[1]) && FoldChar(x[2]) == FoldChar(CURRENCY[2]);
    }
  }

  function Classify(status: string): Outcome {
    var s := ToLower(status);
    if s == "success" then Succeeded
    else if s == "failed" || s == "abandoned" || s == "reversed" then Failed
    else Unknown
  }

  const UNKNOWN := Result(Unknown, 0, "")
  const FAILED := Result(Failed, 0, "")

  /** The switch of doTx, in its order. */
  function DoTx(op: Op, r: Reply): Result {
    if r.NoReply? then UNKNOWN
    else if r.code >= 500 || r.code == 429 then UNKNOWN
    else if !r.decoded then UNKNOWN
    else if op == VerifyTransaction && (r.code == 400 || r.code == 404) && !r.ok then FAILED
    else if op == VerifyTransaction && (r.code >= 400 || !r.ok) then UNKNOWN
    else if r.code >= 400 || !r.ok then FAILED
    else Result(Classify(r.status), r.amount, r.currency)
  }

  /** The gateway's own record of a reference. Reversed is money returned. */
  datatype Tx = Processing | Charged | Declined | Reversed

  /** No money was kept, and none will be. */
  predicate Dead(tx: Option<Tx>) {
    tx.None? || tx.value == Declined || tx.value == Reversed
  }

  /** c is the small letter w, its capital, or one of the two other characters
      whose small form is an ASCII letter. */
  predicate CaseOf(c: char, w: char) {
    c == w || ('A' <= c <= 'Z' && c as int + 32 == w as int) || (c == '\U{0130}' && w == 'i') || (c == '\U{212A}' && w == 'k')
  }

  /** The text is the word, which is in small letters, in any case. */
  predicate Spells(text: string, word: string) {
    |text| == |word| && forall i :: 0 <= i < |text| ==> CaseOf(text[i], word[i])
  }

  /** What a final status word says of the gateway's record; any other word says
      nothing. */
  predicate WordIsTrue(status: string, tx: Tx) {
    && (Spells(status, "success") ==> tx == Charged)
    && (Spells(status, "failed") || Spells(status, "abandoned") || Spells(status, "reversed") ==>
          tx == Declined || tx == Reversed)
  }

  /** A gateway that does not lie may send this reply while its record is tx.
      A failing server, a proxy or an error about the caller says nothing about
      the record; a refused charge leaves none; only the verification's own
      "no such reference" denies it; and a reported final status is the record's. */
  predicate Honest(op: Op, r: Reply, tx: Option<Tx>) {
    r.NoReply? || r.code >= 500 || r.code == 429 || !r.decoded ||
    (if r.code >= 400 || !r.ok then
       (op == ChargeAuthorization || ((r.code == 400 || r.code == 404) && !r.ok) ==> tx.None?)
     else
       tx.Some? && WordIsTrue(r.status, tx.value))
  }

  lemma {:induction false} LowerSpells(text: string, word: string)
    requires forall i :: 0 <= i < |word| ==> 'a' <= word[i] <= 'z'
    ensures ToLower(text) == word <==> Spells(text, word)
    decreases |text|
  {
    if text != "" && word != "" {
      LowerSpells(text[1..], word[1..]);
      assert word == [word[0]] + word[1..];
      assert Spells(text, word) <==> CaseOf(text[0], word[0]) && Spells(text[1..], word[1..]) by {
        if CaseOf(text[0], word[0]) && Spells(text[1..], word[1..]) {
          forall i | 0 <= i < |text| ensures CaseOf(text[i], word[i]) {
            if i > 0 { assert text[i] == text[1..][i - 1] && word[i] == word[1..][i - 1]; }
          }
        }
      }
    }
  }

  /** Which texts are a success, which a failure, and which say nothing yet. */
  lemma ClassifyIs(status: string)
    ensures Classify(status) == Succeeded <==> Spells(status, "success")
    ensures Classify(status) == Failed <==>
      Spells(status, "failed") || Spells(status, "abandoned") || Spells(status, "reversed")
  {
    LowerSpells(status, "success");
    LowerSpells(status, "failed");
    LowerSpells(status, "abandoned");
    LowerSpells(status, "reversed");
  }

  /** doTx never reports a success that was not charged, nor a failure that may
      have taken money. */
  lemma VerdictIsSound(op: Op, r: Reply, tx: Option<Tx>)
    requires Honest(op, r, tx)
    ensures DoTx(op, r).outcome == Succeeded ==> tx == Some(Charged)
    ensures DoTx(op, r).outcome == Failed ==> Dead(tx)
  {
    if r.Reply? { ClassifyIs(r.status); }
    hide Classify, Spells;
  }

  /** A success is a good answer that says so, and its money is what it reports. */
  lemma SucceedsWhen(op: Op, r: Reply)
    ensures DoTx(op, r).outcome == Succeeded <==>
      r.Reply? && r.code < 400 && r.decoded && r.ok && Spells(r.status, "success")
    ensures DoTx(op, r).outcome == Succeeded ==> DoTx(op, r).amount == r.amount && DoTx(op, r).currency == r.currency
  {
    if r.Reply? { ClassifyIs(r.status); }
    hide Classify, Spells;
  }

  lemma OneWord(status: string)
    ensures Spells(status, "success") ==>
      !Spells(status, "failed") && !Spells(status, "abandoned") && !Spells(status, "reversed")
  {
  }

  predicate Possible(op: Op, r: Reply) {
    Honest(op, r, None) || Honest(op, r, Some(Processing)) || Honest(op, r, Some(Charged))
    || Honest(op, r, Some(Declined)) || Honest(op, r, Some(Reversed))
  }

  /** Nor could it decide more: it answers unknown exactly when an honest
      gateway may send the reply both with the money taken and without. */
  lemma UnknownExactlyWhenOpen(op: Op, r: Reply)
    requires Possible(op, r)
    ensures DoTx(op, r).outcome == Unknown <==>
      Honest(op, r, Some(Charged)) && exists tx :: Dead(tx) && Honest(op, r, tx)
  {
    var dead: Option<Tx> := Some(Declined);
    assert Dead(dead) && Dead(None);
    if r.Reply? {
      ClassifyIs(r.status);
      OneWord(r.status);
    }
    hide Classify, Spells;
    if DoTx(op, r).outcome == Unknown { assert Honest(op, r, dead); }
  }
}

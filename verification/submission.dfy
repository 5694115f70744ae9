/** How the answers of a node are read: what counts as a definitive rejection, and when a nonce is consumed. */
module Submission {
  import opened Wrappers
  import opened Network

  // ---------- text ----------

  function LowerChar(c: char): char {
    if 'A' <= c <= 'Z' then c - 'A' + 'a' else c
  }

  function UpperChar(c: char): char {
    if 'a' <= c <= 'z' then c - 'a' + 'A' else c
  }

  /** `lower` and `upper` on ASCII text. */
  function Lower(s: string): string {
    seq(|s|, i requires 0 <= i < |s| => LowerChar(s[i]))
  }

  function Upper(s: string): string {
    seq(|s|, i requires 0 <= i < |s| => UpperChar(s[i]))
  }

  predicate OccursAt(s: string, i: nat, part: string) {
    i + |part| <= |s| && s[i..i + |part|] == part
  }

  predicate Contains(s: string, part: string) {
    exists i: nat :: i <= |s| && OccursAt(s, i, part)
  }

  // ---------- the answer to a broadcast ----------

  /** A CheckTx answer; `code` is present when it is an integer. */
  datatype CheckTx = CheckTx(error: bool, code: Option<int>, hash: Option<string>, log: string)

  const ALREADY_EXISTS := "tx already exists"

  /** An unclear answer raises; nothing follows from it. */
  function Classify(answer: CheckTx, txHash: string): Reply {
    if answer.error then Unclear("RPC did not return a definitive CheckTx result")
    else if answer.code.None? then Unclear("CheckTx result is missing a valid status code")
    else if answer.hash.Some? && Upper(answer.hash.value) != txHash then Unclear("RPC transaction hash mismatch")
    else if answer.code.value == 0 then Accepted
    else
      var message := if answer.log == "" then "transaction rejected" else answer.log;
      if Contains(Lower(message), ALREADY_EXISTS) then Unclear("transaction may already be pending or committed")
      else Refused(message)
  }

  /**
   Only a status of the node itself, for this very transaction, decides: nought accepts, and anything else
   rejects unless the node says in any letter case that it knows the transaction already.
   */
  lemma DecidesExactly(answer: CheckTx, txHash: string)
    ensures !Classify(answer, txHash).Unclear?
            <==> && !answer.error
                 && answer.code.Some?
                 && (answer.hash.Some? ==> Upper(answer.hash.value) == txHash)
                 && (answer.code.value == 0 || !Contains(Lower(answer.log), ALREADY_EXISTS))
    ensures Classify(answer, txHash).Accepted? ==> answer.code == Some(0)
    ensures Classify(answer, txHash).Refused? ==>
              && answer.code != Some(0)
              && Classify(answer, txHash).message == if answer.log == "" then "transaction rejected" else answer.log
  {
    if answer.log == "" {
      TooShort(Lower("transaction rejected"));
    }
  }

  /** The default message has no room for the phrase where it could start. */
  lemma TooShort(s: string)
    requires s == Lower("transaction rejected")
    ensures !Contains(s, ALREADY_EXISTS)
  {
    assert s[1] == 'r' && s[2] == 'a' && s[3] == 'n' && s[0] == 't';
    assert |ALREADY_EXISTS| == 17 && ALREADY_EXISTS[1] == 'x' && ALREADY_EXISTS[0] == 't';
    forall i: nat | i + |ALREADY_EXISTS| <= |s|
      ensures !OccursAt(s, i, ALREADY_EXISTS)
    {
      assert s[i..i + |ALREADY_EXISTS|][0] == s[i] && s[i..i + |ALREADY_EXISTS|][1] == s[i + 1];
    }
  }

  /** Wherever and however it is spelled, a transaction the node already knows is never taken as rejected. */
  lemma KnownIsNeverRefused(answer: CheckTx, txHash: string, before: string, phrase: string, after: string)
    requires answer.log == before + phrase + after && Lower(phrase) == ALREADY_EXISTS
    ensures !Classify(answer, txHash).Refused?
  {
    var text := Lower(answer.log);
    assert |phrase| == |Lower(phrase)| == |ALREADY_EXISTS|;
    assert text[|before|..|before| + |ALREADY_EXISTS|] == Lower(phrase);
    assert OccursAt(text, |before|, ALREADY_EXISTS);
  }

  // ---------- the committed nonce ----------

  /** What a state read returns for the nonce key. */
  datatype StateValue = Missing | Number(value: int) | Malformed

  /** `None` where the reading raises. */
  function NonceAnswer(stored: StateValue, nonce: nat): Option<bool> {
    match stored
    case Missing => Some(false)
    case Number(value) => if value < 0 then None else Some(value >= nonce)
    case Malformed => None
  }

  /** A nonce is read as consumed exactly from a number that reaches it; without an entry it is not consumed. */
  lemma NonceExactly(stored: StateValue, nonce: nat)
    ensures NonceAnswer(stored, nonce) == Some(true) <==> stored.Number? && stored.value >= nonce
    ensures NonceAnswer(stored, nonce) == Some(false)
            <==> stored.Missing? || (stored.Number? && 0 <= stored.value < nonce)
  {
  }

  /** The value some past or present state of the chain holds for the account. */
  predicate Seen(net: Net, account: Account, stored: StateValue) {
    stored.Number? ==> account in net.committed && stored.value <= net.committed[account]
  }

  /** A positive answer is reliable even from a node that lags behind. */
  lemma PositiveIsConsumed(net: Net, tx: Tx, stored: StateValue)
    requires Seen(net, tx.account, stored)
    ensures NonceAnswer(stored, tx.nonce) == Some(true) ==> Consumed(net, tx)
    ensures Consumed(net, tx) && stored == Number(net.committed[tx.account]) ==>
              NonceAnswer(stored, tx.nonce) == Some(true)
  {
  }
}

/** The super-admin ledger page: the search filter and the row display rules. */
module TransactionsPage {
  import opened Wrappers
  import opened Text
  import opened Seqs

  /** The user columns embedded in a ledger row (absent for a deleted user). */
  datatype TxUser = TxUser(firstName: Option<string>, lastName: Option<string>, email: Option<string>)

  /** A ledger row as the page receives it. */
  datatype ClientTx = ClientTx(user: Option<TxUser>, stripePaymentId: Option<string>, status: string)

  /** `field?.toLowerCase().includes(search.toLowerCase())`: a missing field never matches. */
  predicate FieldMatches(field: Option<string>, search: string) {
    field.Some? && IncludesIgnoreCase(field.value, search)
  }

  /** The row matches on the user's email, the user's first name or the payment id; never on the last name. */
  predicate TxMatches(search: string, tx: ClientTx) {
    (tx.user.Some? && FieldMatches(tx.user.value.email, search))
    || (tx.user.Some? && FieldMatches(tx.user.value.firstName, search))
    || FieldMatches(tx.stripePaymentId, search)
  }

  /** `filteredTransactions`. */
  function FilterTransactions(txs: seq<ClientTx>, search: string): (r: seq<ClientTx>)
    ensures forall k :: 0 <= k < |r| ==> TxMatches(search, r[k])
    ensures forall j :: 0 <= j < |txs| && TxMatches(search, txs[j]) ==> txs[j] in r
  {
    Filter(txs, (tx: ClientTx) => TxMatches(search, tx))
  }

  /** The filter keeps the rows' order. */
  lemma FilterKeepsOrder(txs: seq<ClientTx>, search: string)
    ensures Subseq(FilterTransactions(txs, search), txs)
  {
    FilterIsSubseq(txs, (tx: ClientTx) => TxMatches(search, tx));
  }

  /**
   * With an empty search a row is shown iff it has at least one of the three
   * fields; so a deleted user's row without a payment id is hidden.
   */
  lemma EmptySearch(tx: ClientTx)
    ensures TxMatches("", tx) <==>
              (tx.user.Some? && (tx.user.value.email.Some? || tx.user.value.firstName.Some?))
              || tx.stripePaymentId.Some?
    ensures tx.user.None? && tx.stripePaymentId.None? ==> !TxMatches("", tx)
  {
    if tx.user.Some? && tx.user.value.email.Some? { EmptyIsContained(ToLower(tx.user.value.email.value)); }
    if tx.user.Some? && tx.user.value.firstName.Some? { EmptyIsContained(ToLower(tx.user.value.firstName.value)); }
    if tx.stripePaymentId.Some? { EmptyIsContained(ToLower(tx.stripePaymentId.value)); }
  }

  /** The last name plays no part in the search. */
  lemma LastNameIgnored(tx: ClientTx, search: string, other: Option<string>)
    requires tx.user.Some?
    ensures TxMatches(search, tx) == TxMatches(search, tx.(user := Some(tx.user.value.(lastName := other))))
  {
  }

  /** The displayed id: the first 16 characters and "...", or "N/A" without a (non-empty) id. */
  function DisplayId(id: Option<string>): (r: string)
    ensures !TruthyStr(id) ==> r == "N/A"
    ensures TruthyStr(id) && |id.value| >= 16 ==> r == id.value[..16] + "..."
    ensures TruthyStr(id) && |id.value| < 16 ==> r == id.value + "..."
    ensures TruthyStr(id) ==> |r| <= 19 && r[|r| - 3..] == "..." && id.value[..|r| - 3] == r[..|r| - 3]
  {
    if !TruthyStr(id) then "N/A"
    else (if |id.value| >= 16 then id.value[..16] else id.value) + "..."
  }

  datatype Badge = Green | Yellow | Red

  /** The status badge: green for "succeeded", yellow for "pending", red otherwise. */
  function StatusBadge(status: string): (b: Badge)
    ensures b == Green <==> status == "succeeded"
    ensures b == Yellow <==> status == "pending"
    ensures b == Red <==> status != "succeeded" && status != "pending"
  {
    if status == "succeeded" then Green else if status == "pending" then Yellow else Red
  }
}

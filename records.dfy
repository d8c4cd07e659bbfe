/**
 * Record shapes shared by the graph engine, the backend response shaping and
 * the seeder. A JavaScript field that is null, undefined or the empty string
 * is falsy; all three are modelled by the empty string.
 */
module Records {

  datatype Option<T> = None | Some(value: T)

  /** A user as the data service returns it. */
  datatype User = User(
    id: string,
    name: string,
    email: string,
    phone: string,
    address: string,
    paymentMethod: string)

  /**
   * A transaction as the data service returns it. `time` is the result of
   * parsing `timestamp` into epoch milliseconds (None when it does not parse);
   * the parsing itself is a library call and not part of this model.
   */
  datatype Tx = Tx(
    id: string,
    senderId: string,
    receiverId: string,
    status: string,
    ipAddress: string,
    deviceId: string,
    time: Option<int>)

  /** The three colour classes a transaction node can take. */
  datatype TxClass = ClearTx | ReviewTx | FlaggedTx

  /** The status-to-class mapping used wherever a transaction node is drawn:
      anything that is neither "flagged" nor "review" (including a missing
      status) is drawn as clear. */
  function ClassOf(status: string): (c: TxClass)
    ensures c == FlaggedTx <==> status == "flagged"
    ensures c == ReviewTx <==> status == "review"
  {
    if status == "flagged" then FlaggedTx
    else if status == "review" then ReviewTx
    else ClearTx
  }

  /** `k` is the position of the first transaction carrying `id`. */
  predicate IsFirstWithId(txs: seq<Tx>, id: string, k: int)
  {
    0 <= k < |txs| && txs[k].id == id && forall m :: 0 <= m < k ==> txs[m].id != id
  }

  /** The status of the first transaction with the given id, or "clear" when
      there is none (the `find(...) || { status: "clear" }` fallback). */
  function StatusOf(txs: seq<Tx>, id: string): string
  {
    if txs == [] then "clear"
    else if txs[0].id == id then txs[0].status
    else StatusOf(txs[1..], id)
  }

  /** The status is that of the first transaction with the id, and "clear" when no
      transaction has it. */
  lemma {:induction false} StatusOfMeaning(txs: seq<Tx>, id: string)
    ensures (forall k :: 0 <= k < |txs| ==> txs[k].id != id) ==> StatusOf(txs, id) == "clear"
    ensures forall k :: IsFirstWithId(txs, id, k) ==> StatusOf(txs, id) == txs[k].status
  {
    if txs != [] && txs[0].id != id {
      StatusOfMeaning(txs[1..], id);
      forall k | IsFirstWithId(txs, id, k)
        ensures StatusOf(txs, id) == txs[k].status
      {
        assert k > 0;
        assert IsFirstWithId(txs[1..], id, k - 1);
      }
    }
  }
}

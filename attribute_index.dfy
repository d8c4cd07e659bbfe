/**
 * The attribute indexer: for every record whose grouping field is present,
 * append the record's id to the list kept under that field's value.
 */
module AttributeIndex {
  import opened Records

  /** One record's contribution: its id and the value of the grouping field. */
  datatype Entry = Entry(id: string, value: string)

  /**
   * A JavaScript object used as a dictionary from attribute value to ids.
   * `keys` is the order in which Object.entries visits the values (the order
   * in which they were first inserted).
   */
  datatype Index = Index(keys: seq<string>, groups: map<string, seq<string>>)

  const Empty: Index := Index([], map[])

  /** Keys are listed once each, and exactly the keys of the dictionary. */
  ghost predicate WellFormed(idx: Index)
  {
    && (forall i, j :: 0 <= i < j < |idx.keys| ==> idx.keys[i] != idx.keys[j])
    && (forall k :: k in idx.groups <==> k in idx.keys)
  }

  /** One step of the indexer: `if (value) (map[value] = map[value] || []).push(id)`. */
  function Push(idx: Index, e: Entry): Index
  {
    if e.value == "" then idx
    else if e.value in idx.groups then idx.(groups := idx.groups[e.value := idx.groups[e.value] + [e.id]])
    else Index(idx.keys + [e.value], idx.groups[e.value := [e.id]])
  }

  /** The index after the loop has visited every entry, in order. */
  function IndexOf(es: seq<Entry>): Index
  {
    if es == [] then Empty else Push(IndexOf(es[..|es| - 1]), es[|es| - 1])
  }

  /** Reference definition: the ids of the entries carrying value v, in input order,
      repeats included. */
  function IdsWith(es: seq<Entry>, v: string): seq<string>
  {
    if es == [] then []
    else IdsWith(es[..|es| - 1], v) + (if es[|es| - 1].value == v then [es[|es| - 1].id] else [])
  }

  /** `idx` is the index of `es`: a value is a key exactly when it is non-empty and
      some entry carries it, and its list is exactly IdsWith. */
  ghost predicate Indexes(idx: Index, es: seq<Entry>)
  {
    && WellFormed(idx)
    && (forall v :: v in idx.groups <==> v != "" && IdsWith(es, v) != [])
    && (forall v :: v in idx.groups ==> idx.groups[v] == IdsWith(es, v))
  }

  lemma {:induction false} IndexOfMeaning(es: seq<Entry>)
    ensures Indexes(IndexOf(es), es)
  {
    if es != [] {
      var front, e := es[..|es| - 1], es[|es| - 1];
      IndexOfMeaning(front);
      var before := IndexOf(front);
      assert IndexOf(es) == Push(before, e);
      forall v ensures IdsWith(es, v) == IdsWith(front, v) + (if e.value == v then [e.id] else []) {
      }
      if e.value != "" && e.value !in before.groups {
        var after := IndexOf(es);
        forall i, j | 0 <= i < j < |after.keys| ensures after.keys[i] != after.keys[j] {
          if j == |before.keys| {
            assert after.keys[i] == before.keys[i];
          }
        }
      }
    }
  }

  /** The loop's step: pushing entry i onto the index of the entries before it. */
  lemma PushStep(es: seq<Entry>, i: nat, idx: Index, e: Entry)
    requires i < |es| && es[i] == e && idx == IndexOf(es[..i])
    ensures Push(idx, e) == IndexOf(es[..i + 1])
  {
    assert es[..i + 1][..i] == es[..i];
  }

  lemma IndexOfWellFormed(es: seq<Entry>)
    ensures WellFormed(IndexOf(es))
  {
    IndexOfMeaning(es);
  }

  /** The id of a record whose field is empty is never indexed. */
  lemma {:induction false} EmptyValueNeverIndexed(es: seq<Entry>)
    ensures "" !in IndexOf(es).groups
  {
    IndexOfMeaning(es);
  }

  // ---- the four user maps and the two transaction maps ----

  datatype UserField = EmailField | PhoneField | AddressField | PaymentField

  datatype TxField = IpField | DeviceField

  function UserValue(u: User, f: UserField): string
  {
    match f
    case EmailField => u.email
    case PhoneField => u.phone
    case AddressField => u.address
    case PaymentField => u.paymentMethod
  }

  function TxValue(t: Tx, f: TxField): string
  {
    match f
    case IpField => t.ipAddress
    case DeviceField => t.deviceId
  }

  function UserEntries(users: seq<User>, f: UserField): (es: seq<Entry>)
    ensures |es| == |users|
    ensures forall i :: 0 <= i < |users| ==> es[i] == Entry(users[i].id, UserValue(users[i], f))
  {
    seq(|users|, i requires 0 <= i < |users| => Entry(users[i].id, UserValue(users[i], f)))
  }

  function TxEntries(txs: seq<Tx>, f: TxField): (es: seq<Entry>)
    ensures |es| == |txs|
    ensures forall i :: 0 <= i < |txs| ==> es[i] == Entry(txs[i].id, TxValue(txs[i], f))
  {
    seq(|txs|, i requires 0 <= i < |txs| => Entry(txs[i].id, TxValue(txs[i], f)))
  }

  /** The four user maps after the first n users. */
  predicate UserIndicesAt(users: seq<User>, n: nat, email: Index, phone: Index, address: Index, payment: Index)
    requires n <= |users|
  {
    && email == IndexOf(UserEntries(users, EmailField)[..n])
    && phone == IndexOf(UserEntries(users, PhoneField)[..n])
    && address == IndexOf(UserEntries(users, AddressField)[..n])
    && payment == IndexOf(UserEntries(users, PaymentField)[..n])
  }

  /** One pass of the users loop pushes the user's four values. */
  lemma UserIndicesStep(users: seq<User>, i: nat, email: Index, phone: Index, address: Index, payment: Index)
    requires i < |users| && UserIndicesAt(users, i, email, phone, address, payment)
    ensures var u := users[i];
      UserIndicesAt(users, i + 1, Push(email, Entry(u.id, u.email)), Push(phone, Entry(u.id, u.phone)),
        Push(address, Entry(u.id, u.address)), Push(payment, Entry(u.id, u.paymentMethod)))
  {
    var u := users[i];
    PushStep(UserEntries(users, EmailField), i, email, Entry(u.id, u.email));
    PushStep(UserEntries(users, PhoneField), i, phone, Entry(u.id, u.phone));
    PushStep(UserEntries(users, AddressField), i, address, Entry(u.id, u.address));
    PushStep(UserEntries(users, PaymentField), i, payment, Entry(u.id, u.paymentMethod));
  }

  lemma UserIndicesDone(users: seq<User>, email: Index, phone: Index, address: Index, payment: Index)
    requires UserIndicesAt(users, |users|, email, phone, address, payment)
    ensures email == IndexOf(UserEntries(users, EmailField))
    ensures phone == IndexOf(UserEntries(users, PhoneField))
    ensures address == IndexOf(UserEntries(users, AddressField))
    ensures payment == IndexOf(UserEntries(users, PaymentField))
  {
    TakeAll(UserEntries(users, EmailField));
    TakeAll(UserEntries(users, PhoneField));
    TakeAll(UserEntries(users, AddressField));
    TakeAll(UserEntries(users, PaymentField));
  }

  lemma TakeAll<T>(s: seq<T>)
    ensures s[..|s|] == s
  {
  }

  /** The users.forEach loop that fills the email, phone, address and payment maps. */
  method BuildUserIndices(users: seq<User>) returns (email: Index, phone: Index, address: Index, payment: Index)
    ensures email == IndexOf(UserEntries(users, EmailField))
    ensures phone == IndexOf(UserEntries(users, PhoneField))
    ensures address == IndexOf(UserEntries(users, AddressField))
    ensures payment == IndexOf(UserEntries(users, PaymentField))
  {
    email, phone, address, payment := Empty, Empty, Empty, Empty;
    for i := 0 to |users|
      invariant UserIndicesAt(users, i, email, phone, address, payment)
    {
      var u := users[i];
      UserIndicesStep(users, i, email, phone, address, payment);
      email := Push(email, Entry(u.id, u.email));
      phone := Push(phone, Entry(u.id, u.phone));
      address := Push(address, Entry(u.id, u.address));
      payment := Push(payment, Entry(u.id, u.paymentMethod));
    }
    UserIndicesDone(users, email, phone, address, payment);
  }

  /** The txs.forEach loop that fills the IP and device maps. */
  method BuildTxIndices(txs: seq<Tx>) returns (ip: Index, device: Index)
    ensures ip == IndexOf(TxEntries(txs, IpField))
    ensures device == IndexOf(TxEntries(txs, DeviceField))
  {
    ghost var es1, es2 := TxEntries(txs, IpField), TxEntries(txs, DeviceField);
    ip, device := Empty, Empty;
    for i := 0 to |txs|
      invariant ip == IndexOf(es1[..i]) && device == IndexOf(es2[..i])
    {
      var t := txs[i];
      var e1, e2 := Entry(t.id, t.ipAddress), Entry(t.id, t.deviceId);
      PushStep(es1, i, ip, e1);
      PushStep(es2, i, device, e2);
      ip := Push(ip, e1);
      device := Push(device, e2);
    }
    assert es1[..|txs|] == es1 && es2[..|txs|] == es2;
  }
}

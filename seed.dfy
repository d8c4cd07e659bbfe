/**
 * The deterministic parts of the data seeder: identifier and phone formats,
 * the risk score and status of a generated transaction, the choice of a
 * receiver other than the sender, and the slicing of the records into write
 * batches. Every random draw is a parameter here.
 */
module Seed {
  import opened Records

  // ---------------- identifiers ----------------

  predicate IsDigit(c: char)
  {
    '0' <= c <= '9'
  }

  predicate AllDigits(s: string)
  {
    forall i :: 0 <= i < |s| ==> IsDigit(s[i])
  }

  function DigitChar(d: nat): (c: char)
    requires d < 10
    ensures IsDigit(c)
  {
    ('0' as int + d) as char
  }

  /** `str(n)` for a non-negative n. */
  function Decimal(n: nat): (s: string)
    ensures |s| >= 1 && AllDigits(s)
  {
    if n < 10 then [DigitChar(n)] else Decimal(n / 10) + [DigitChar(n % 10)]
  }

  /** The number a digit string denotes; leading zeros add nothing. */
  function Value(s: string): nat
    requires AllDigits(s)
  {
    if s == [] then 0 else Value(s[..|s| - 1]) * 10 + (s[|s| - 1] as int - '0' as int)
  }

  function Zeros(k: nat): (z: string)
    ensures |z| == k && AllDigits(z)
  {
    if k == 0 then [] else Zeros(k - 1) + ['0']
  }

  /** `s.zfill(width)` for a digit string: zeros on the left up to the width. */
  function ZFill(s: string, width: nat): (r: string)
    requires AllDigits(s)
    ensures AllDigits(r)
  {
    if |s| >= width then s else Zeros(width - |s|) + s
  }

  /** `f"U-{str(i+1).zfill(5)}"`. */
  function UserId(i: nat): string
  {
    "U-" + ZFill(Decimal(i + 1), 5)
  }

  /** `f"TX-{str(i+1).zfill(6)}"`. */
  function TxId(i: nat): string
  {
    "TX-" + ZFill(Decimal(i + 1), 6)
  }

  lemma ValueSnoc(s: string, c: char)
    requires AllDigits(s) && IsDigit(c)
    ensures AllDigits(s + [c]) && Value(s + [c]) == Value(s) * 10 + (c as int - '0' as int)
  {
    assert (s + [c])[..|s|] == s;
  }

  /** Reading back `str(n)` gives n. */
  lemma {:induction false} ValueDecimal(n: nat)
    ensures Value(Decimal(n)) == n
  {
    if n >= 10 {
      ValueDecimal(n / 10);
      ValueSnoc(Decimal(n / 10), DigitChar(n % 10));
    }
  }

  /** Zeros on the left do not change the number. */
  lemma {:induction false} ValueZeros(k: nat, s: string)
    requires AllDigits(s)
    ensures AllDigits(Zeros(k) + s) && Value(Zeros(k) + s) == Value(s)
  {
    if s == [] {
      assert Zeros(k) + s == Zeros(k);
      ZerosValue(k);
    } else {
      var front, c := s[..|s| - 1], s[|s| - 1];
      ValueZeros(k, front);
      assert Zeros(k) + s == (Zeros(k) + front) + [c];
      ValueSnoc(Zeros(k) + front, c);
    }
  }

  lemma {:induction false} ZerosValue(k: nat)
    ensures Value(Zeros(k)) == 0
  {
    if k > 0 {
      ZerosValue(k - 1);
      ValueSnoc(Zeros(k - 1), '0');
    }
  }

  /** Padding `str(n)` to any width still reads back as n. */
  lemma ValueZFill(n: nat, width: nat)
    ensures Value(ZFill(Decimal(n), width)) == n
  {
    ValueDecimal(n);
    if |Decimal(n)| < width {
      ValueZeros(width - |Decimal(n)|, Decimal(n));
    }
  }

  /** Different indices give different user ids, and different transaction ids. */
  lemma IdsInjective(i: nat, j: nat)
    ensures UserId(i) == UserId(j) ==> i == j
    ensures TxId(i) == TxId(j) ==> i == j
  {
    if UserId(i) == UserId(j) {
      PrefixedInjective("U-", 5, i, j);
    }
    if TxId(i) == TxId(j) {
      PrefixedInjective("TX-", 6, i, j);
    }
  }

  /** A fixed prefix before the padded `str(i+1)` keeps indices apart. */
  lemma PrefixedInjective(p: string, w: nat, i: nat, j: nat)
    requires p + ZFill(Decimal(i + 1), w) == p + ZFill(Decimal(j + 1), w)
    ensures i == j
  {
    DropPrefix(p, ZFill(Decimal(i + 1), w), ZFill(Decimal(j + 1), w));
    PaddedInjective(w, i, j);
  }

  lemma PaddedInjective(w: nat, i: nat, j: nat)
    requires ZFill(Decimal(i + 1), w) == ZFill(Decimal(j + 1), w)
    ensures i == j
  {
    ValueZFill(i + 1, w);
    ValueZFill(j + 1, w);
  }

  lemma DropPrefix(p: string, t: string, u: string)
    requires p + t == p + u
    ensures t == u
  {
    assert (p + t)[|p|..] == t;
    assert (p + u)[|p|..] == u;
  }

  /** No user id is a transaction id, and no id holds the `|` that separates the parts
      of an edge key. */
  lemma IdsApart(i: nat, j: nat)
    ensures UserId(i) != TxId(j)
    ensures '|' !in UserId(i) && '|' !in TxId(j)
  {
    SecondChar("U-", ZFill(Decimal(i + 1), 5));
    SecondChar("TX-", ZFill(Decimal(j + 1), 6));
    NoBar("U-", ZFill(Decimal(i + 1), 5));
    NoBar("TX-", ZFill(Decimal(j + 1), 6));
  }

  lemma SecondChar(p: string, t: string)
    requires |p| >= 2
    ensures (p + t)[1] == p[1]
  {
  }

  /** A prefix without `|` followed by digits holds no `|`. */
  lemma NoBar(p: string, t: string)
    requires '|' !in p && AllDigits(t)
    ensures '|' !in p + t
  {
    forall k | 0 <= k < |p + t|
      ensures (p + t)[k] != '|'
    {
      if k < |p| {
        assert (p + t)[k] == p[k];
      } else {
        assert (p + t)[k] == t[k - |p|];
      }
    }
  }

  /** A short index is padded: the first 99999 users have seven-character ids. */
  lemma {:induction false} DecimalShort(n: nat, k: nat)
    requires n < Pow10(k) && k >= 1
    ensures |Decimal(n)| <= k
  {
    if n >= 10 {
      DecimalShort(n / 10, k - 1);
    }
  }

  function Pow10(k: nat): (p: nat)
    ensures p >= 1
  {
    if k == 0 then 1 else 10 * Pow10(k - 1)
  }

  lemma UserIdLength(i: nat)
    requires i + 1 < 100000
    ensures |UserId(i)| == 7
  {
    assert Pow10(5) == 100000;
    DecimalShort(i + 1, 5);
  }

  // ---------------- phone numbers ----------------

  /** `f"+91-{number[:5]}-{number[5:]}"`, with Python's clamped slices. */
  function Phone(number: string): string
  {
    var cut := if |number| < 5 then |number| else 5;
    "+91-" + number[..cut] + "-" + number[cut..]
  }

  /** A mobile number as drawn: a first digit from 6 to 9, then nine digits. */
  predicate IsMobileNumber(number: string)
  {
    |number| == 10 && number[0] in "6789" && AllDigits(number)
  }

  /** The digits of a formatted phone, read back. */
  function PhoneDigits(phone: string): string
    requires |phone| == 15
  {
    phone[4..9] + phone[10..]
  }

  /** A drawn number formats as `+91-` then five digits, a dash and five digits, and
      the digits read back unchanged. */
  lemma PhoneShape(number: string)
    requires IsMobileNumber(number)
    ensures var p := Phone(number);
      && |p| == 15 && p[..4] == "+91-" && p[9] == '-'
      && p[4] in "6789"
      && (forall k :: 4 <= k < 15 && k != 9 ==> IsDigit(p[k]))
      && PhoneDigits(p) == number
  {
    var p := Phone(number);
    assert p == "+91-" + number[..5] + "-" + number[5..];
    assert p[4..9] == number[..5];
    assert p[10..] == number[5..];
    assert number[..5] + number[5..] == number;
    forall k | 4 <= k < 15 && k != 9
      ensures IsDigit(p[k])
    {
      if k < 9 { assert p[k] == number[k - 4]; } else { assert p[k] == number[k - 5]; }
    }
  }

  /** The first digit drawn and the nine after it make a mobile number. */
  lemma DrawnNumber(first: char, rest: string)
    requires first in "6789" && |rest| == 9 && AllDigits(rest)
    ensures IsMobileNumber([first] + rest)
  {
    var n := [first] + rest;
    forall i | 0 <= i < |n|
      ensures IsDigit(n[i])
    {
      if i > 0 { assert n[i] == rest[i - 1]; }
    }
  }

  // ---------------- risk and status ----------------

  /** The amount, in paise, above which a transaction counts as large (₹10 lakh). */
  const LargeAmount: nat := 100000000

  /** The risk score in hundredths: a base of 5, 40 for a shared IP, 30 for a shared
      device, 20 for a large amount, capped at 100. */
  function RiskOf(sharedIp: bool, sharedDevice: bool, large: bool): nat
  {
    Min(5 + (if sharedIp then 40 else 0) + (if sharedDevice then 30 else 0) + (if large then 20 else 0), 100)
  }

  function Min(a: nat, b: nat): nat
  {
    if a < b then a else b
  }

  /** The score accumulated as the seeder does it, one `+=` per signal. */
  method Risk(ip: string, sharedIps: seq<string>, device: string, sharedDevices: seq<string>, amount: nat)
    returns (risk: nat)
    ensures risk == RiskOf(ip in sharedIps, device in sharedDevices, amount > LargeAmount)
  {
    risk := 5;
    if ip in sharedIps {
      risk := risk + 40;
    }
    if device in sharedDevices {
      risk := risk + 30;
    }
    if amount > LargeAmount {
      risk := risk + 20;
    }
    risk := Min(risk, 100);
  }

  /** `"flagged" if risk > 0.7 else "review" if risk > 0.4 else "clear"`, in hundredths. */
  function Status(risk: nat): string
  {
    if risk > 70 then "flagged" else if risk > 40 then "review" else "clear"
  }

  /** Every score lies between 5 and 95, so the cap at 100 never applies. */
  lemma RiskRange(sharedIp: bool, sharedDevice: bool, large: bool)
    ensures 5 <= RiskOf(sharedIp, sharedDevice, large) <= 95
    ensures RiskOf(sharedIp, sharedDevice, large)
      == 5 + (if sharedIp then 40 else 0) + (if sharedDevice then 30 else 0) + (if large then 20 else 0)
  {
  }

  /** A transaction is flagged exactly when both its IP and its device are shared; it is
      under review exactly when its IP alone is shared, or its device is shared and its
      amount large; otherwise it is clear. */
  lemma StatusBySignals(sharedIp: bool, sharedDevice: bool, large: bool)
    ensures var s := Status(RiskOf(sharedIp, sharedDevice, large));
      && (s == "flagged" <==> sharedIp && sharedDevice)
      && (s == "review" <==> (sharedIp && !sharedDevice) || (!sharedIp && sharedDevice && large))
      && (s == "clear" <==> !sharedIp && !(sharedDevice && large))
  {
    assert "flagged" != "review" && "flagged" != "clear" && "review" != "clear";
  }

  /** The status the seeder stores is drawn by the dashboard in the matching colour. */
  lemma StatusDrawn(risk: nat)
    ensures ClassOf(Status(risk)) == (if risk > 70 then FlaggedTx else if risk > 40 then ReviewTx else ClearTx)
  {
    assert "flagged" != "review" && "flagged" != "clear" && "review" != "clear";
  }

  // ---------------- sender and receiver ----------------

  /** `[u for u in user_ids if u != sender]`. */
  function Others(ids: seq<string>, sender: string): (os: seq<string>)
    ensures |os| <= |ids|
  {
    if ids == [] then []
    else Others(ids[..|ids| - 1], sender) + (if ids[|ids| - 1] != sender then [ids[|ids| - 1]] else [])
  }

  lemma {:induction false} OthersMembers(ids: seq<string>, sender: string, x: string)
    ensures x in Others(ids, sender) <==> x in ids && x != sender
  {
    if ids != [] {
      var front := ids[..|ids| - 1];
      OthersMembers(front, sender, x);
      assert ids == front + [ids[|ids| - 1]];
    }
  }

  /** The receiver drawn by `random.choice` at position `pick`; `None` where the choice
      has nothing to draw from and raises. */
  function Receiver(ids: seq<string>, sender: string, pick: nat): Option<string>
  {
    var os := Others(ids, sender);
    if os == [] then None else Some(os[pick % |os|])
  }

  /** A drawn receiver is a user other than the sender; the draw fails only when every
      id is the sender's. */
  lemma ReceiverDiffers(ids: seq<string>, sender: string, pick: nat)
    ensures Receiver(ids, sender, pick).Some? ==>
      Receiver(ids, sender, pick).value != sender && Receiver(ids, sender, pick).value in ids
    ensures Receiver(ids, sender, pick).None? <==> forall k :: 0 <= k < |ids| ==> ids[k] == sender
  {
    var os := Others(ids, sender);
    if os != [] {
      OthersMembers(ids, sender, os[pick % |os|]);
      var x := os[0];
      OthersMembers(ids, sender, x);
      var k :| 0 <= k < |ids| && ids[k] == x;
    } else {
      forall k | 0 <= k < |ids|
        ensures ids[k] == sender
      {
        OthersMembers(ids, sender, ids[k]);
      }
    }
  }

  // ---------------- write batches ----------------

  const UserBatch: nat := 500
  const TxBatch: nat := 1000

  function Flatten<T>(batches: seq<seq<T>>): seq<T>
  {
    if batches == [] then [] else Flatten(batches[..|batches| - 1]) + batches[|batches| - 1]
  }

  /** `for i in range(0, len(xs), size): batch = xs[i:i+size]`, collecting the batches
      written. */
  method Batches<T>(xs: seq<T>, size: nat) returns (batches: seq<seq<T>>)
    requires size > 0
    ensures Flatten(batches) == xs
    ensures forall k :: 0 <= k < |batches| ==> 0 < |batches[k]| <= size
    ensures forall k :: 0 <= k < |batches| - 1 ==> |batches[k]| == size
  {
    batches := [];
    var i := 0;
    while i < |xs|
      invariant i <= |xs| && Flatten(batches) == xs[..i]
      invariant forall k :: 0 <= k < |batches| ==> 0 < |batches[k]| <= size
      invariant forall k :: 0 <= k < |batches| ==> |batches[k]| == size
    {
      var end := if i + size < |xs| then i + size else |xs|;
      var batch := xs[i..end];
      assert (batches + [batch])[..|batches|] == batches;
      assert xs[..i] + xs[i..end] == xs[..end];
      batches := batches + [batch];
      i := end;
      if i == |xs| {
        break;
      }
    }
    assert xs[..|xs|] == xs;
  }
}

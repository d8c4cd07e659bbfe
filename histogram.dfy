/**
 * The activity histogram of the overview page: the fetched transactions are
 * spread over 12 equal time bins between the earliest and the latest
 * timestamp, counting transactions, flagged transactions, and users seen
 * for the first time.
 */
module Histogram {
  import opened Records

  const Bins: nat := 12

  /** A timestamp that parses to a non-zero instant; `filter(Boolean)` and the
      `if (!ts) return` guard drop both a failed parse and the instant 0. */
  predicate HasTime(t: Tx)
  {
    t.time.Some? && t.time.value != 0
  }

  /** The instants of the transactions that have one, in input order. */
  function Times(txs: seq<Tx>): (ts: seq<int>)
    ensures |ts| <= |txs|
  {
    if txs == [] then []
    else Times(txs[..|txs| - 1]) + (if HasTime(txs[|txs| - 1]) then [txs[|txs| - 1].time.value] else [])
  }

  function MinOf(s: seq<int>): (m: int)
    requires s != []
    ensures m in s && forall x :: x in s ==> m <= x
  {
    if |s| == 1 then s[0]
    else
      var m := MinOf(s[..|s| - 1]);
      assert forall x :: x in s ==> x in s[..|s| - 1] || x == s[|s| - 1];
      if s[|s| - 1] < m then s[|s| - 1] else m
  }

  function MaxOf(s: seq<int>): (m: int)
    requires s != []
    ensures m in s && forall x :: x in s ==> x <= m
  {
    if |s| == 1 then s[0]
    else
      var m := MaxOf(s[..|s| - 1]);
      assert forall x :: x in s ==> x in s[..|s| - 1] || x == s[|s| - 1];
      if s[|s| - 1] > m then s[|s| - 1] else m
  }

  /** `(maxT - minT) || 1`: the width of the time range, or 1 when every instant is the same. */
  function Span(lo: int, hi: int): (w: int)
    requires lo <= hi
    ensures w >= 1
    ensures w == 1 <==> hi - lo <= 1
  {
    if hi - lo == 0 then 1 else hi - lo
  }

  /** `Math.min(BINS-1, Math.floor(((ts - minT) / span) * BINS))`, on exact rationals. */
  function BinOf(ts: int, lo: int, span: int): (b: nat)
    requires lo <= ts && span >= 1
    ensures b < Bins
  {
    var raw := ((ts - lo) * Bins) / span;
    if raw < Bins - 1 then raw else Bins - 1
  }

  /** Three rows of 12 counters and the set of users already counted. */
  datatype Tally = Tally(txs: seq<nat>, flagged: seq<nat>, users: seq<nat>, seen: set<string>)

  function Zeros(): (z: seq<nat>)
    ensures |z| == Bins
  {
    seq(Bins, _ => 0)
  }

  function Bump(s: seq<nat>, b: nat): (r: seq<nat>)
    requires b < |s|
    ensures |r| == |s|
  {
    s[b := s[b] + 1]
  }

  /** One pass of the forEach body. */
  function TallyStep(h: Tally, t: Tx, lo: int, span: int): Tally
    requires |h.txs| == Bins && |h.flagged| == Bins && |h.users| == Bins && span >= 1
    requires HasTime(t) ==> lo <= t.time.value
  {
    if !HasTime(t) then h
    else
      var b := BinOf(t.time.value, lo, span);
      var flagged := if t.status == "flagged" then Bump(h.flagged, b) else h.flagged;
      var u1 := if t.senderId in h.seen then h.users else Bump(h.users, b);
      var seen1 := h.seen + {t.senderId};
      var u2 := if t.receiverId in seen1 then u1 else Bump(u1, b);
      Tally(Bump(h.txs, b), flagged, u2, seen1 + {t.receiverId})
  }

  /** Every instant of `txs` is at least `lo`. */
  predicate TimesFrom(txs: seq<Tx>, lo: int)
  {
    forall k :: 0 <= k < |txs| && HasTime(txs[k]) ==> lo <= txs[k].time.value
  }

  function TallyOf(txs: seq<Tx>, lo: int, span: int): (h: Tally)
    requires span >= 1 && TimesFrom(txs, lo)
    ensures |h.txs| == Bins && |h.flagged| == Bins && |h.users| == Bins
  {
    if txs == [] then Tally(Zeros(), Zeros(), Zeros(), {})
    else TallyStep(TallyOf(txs[..|txs| - 1], lo, span), txs[|txs| - 1], lo, span)
  }

  /** The chart data the page stores. */
  datatype Bars = Bars(txs: seq<nat>, flagged: seq<nat>, users: seq<nat>, lo: int, span: int)

  /** Reference definition: no chart update for an empty fetch; all-zero bins when
      no timestamp parses; otherwise the tally over the range of the instants. */
  function BarsOf(txs: seq<Tx>): Option<Bars>
  {
    if txs == [] then None
    else
      var ts := Times(txs);
      if ts == [] then Some(Bars(Zeros(), Zeros(), Zeros(), 0, 1))
      else
        var lo, hi := MinOf(ts), MaxOf(ts);
        TimesAbove(txs, lo);
        var h := TallyOf(txs, lo, Span(lo, hi));
        Some(Bars(h.txs, h.flagged, h.users, lo, Span(lo, hi)))
  }

  lemma {:induction false} TimesMembers(txs: seq<Tx>, k: nat)
    requires k < |txs| && HasTime(txs[k])
    ensures txs[k].time.value in Times(txs)
  {
    if k < |txs| - 1 {
      TimesMembers(txs[..|txs| - 1], k);
    }
  }

  lemma TimesAbove(txs: seq<Tx>, lo: int)
    requires Times(txs) != [] && lo == MinOf(Times(txs))
    ensures TimesFrom(txs, lo)
  {
    forall k | 0 <= k < |txs| && HasTime(txs[k]) ensures lo <= txs[k].time.value {
      TimesMembers(txs, k);
    }
  }

  /** `bins[b]++`. */
  method Increment(bins: array<nat>, b: nat)
    requires b < bins.Length
    modifies bins
    ensures bins[..] == Bump(old(bins[..]), b)
  {
    bins[b] := bins[b] + 1;
  }

  /** The forEach body for one transaction. */
  method Visit(txBins: array<nat>, flagBins: array<nat>, userBins: array<nat>, seen: set<string>,
               t: Tx, lo: int, span: int) returns (seen': set<string>)
    requires txBins.Length == Bins && flagBins.Length == Bins && userBins.Length == Bins
    requires txBins != flagBins && txBins != userBins && flagBins != userBins
    requires span >= 1 && (HasTime(t) ==> lo <= t.time.value)
    modifies txBins, flagBins, userBins
    ensures Tally(txBins[..], flagBins[..], userBins[..], seen')
         == TallyStep(Tally(old(txBins[..]), old(flagBins[..]), old(userBins[..]), seen), t, lo, span)
  {
    seen' := seen;
    if HasTime(t) {
      var b := BinOf(t.time.value, lo, span);
      Increment(txBins, b);
      if t.status == "flagged" {
        Increment(flagBins, b);
      }
      if t.senderId !in seen' {
        seen' := seen' + {t.senderId};
        Increment(userBins, b);
      }
      if t.receiverId !in seen' {
        seen' := seen' + {t.receiverId};
        Increment(userBins, b);
      }
    }
  }

  /** The forEach over the transactions, in the order the timestamp sort puts them:
      three arrays of 12 counters incremented in place, and the Set of users counted. */
  method CountBins(txs: seq<Tx>, lo: int, span: int) returns (h: Tally)
    requires span >= 1 && TimesFrom(txs, lo)
    ensures h == TallyOf(txs, lo, span)
  {
    var txBins := new nat[Bins](_ => 0);
    var flagBins := new nat[Bins](_ => 0);
    var userBins := new nat[Bins](_ => 0);
    var seen: set<string> := {};
    assert txs[..0] == [];
    for i := 0 to |txs|
      invariant TimesFrom(txs[..i], lo)
      invariant Tally(txBins[..], flagBins[..], userBins[..], seen) == TallyOf(txs[..i], lo, span)
    {
      assert txs[..i + 1][..i] == txs[..i] && txs[..i + 1][i] == txs[i];
      seen := Visit(txBins, flagBins, userBins, seen, txs[i], lo, span);
    }
    assert txs[..|txs|] == txs;
    h := Tally(txBins[..], flagBins[..], userBins[..], seen);
  }

  /** The histogram effect: nothing for an empty fetch, otherwise the range of the
      instants and the counters. */
  method BuildBars(txs: seq<Tx>) returns (r: Option<Bars>)
    ensures r == BarsOf(txs)
  {
    if txs == [] {
      return None;
    }
    var ts := Times(txs);
    if ts == [] {
      return Some(Bars(Zeros(), Zeros(), Zeros(), 0, 1));
    }
    var lo, hi := MinOf(ts), MaxOf(ts);
    var span := if hi - lo == 0 then 1 else hi - lo;
    TimesAbove(txs, lo);
    var h := CountBins(txs, lo, span);
    r := Some(Bars(h.txs, h.flagged, h.users, lo, span));
  }

  // ---------------- what the bars say ----------------

  function Sum(s: seq<nat>): nat
  {
    if s == [] then 0 else Sum(s[..|s| - 1]) + s[|s| - 1]
  }

  lemma {:induction false} SumBump(s: seq<nat>, b: nat)
    requires b < |s|
    ensures Sum(Bump(s, b)) == Sum(s) + 1
  {
    var t := Bump(s, b);
    if b < |s| - 1 {
      assert t[..|t| - 1] == Bump(s[..|s| - 1], b);
      SumBump(s[..|s| - 1], b);
    } else {
      assert t[..|t| - 1] == s[..|s| - 1];
    }
  }

  lemma {:induction false} SumZeros(n: nat)
    requires n <= Bins
    ensures Sum(Zeros()[..n]) == 0
  {
    if n > 0 {
      assert Zeros()[..n][..n - 1] == Zeros()[..n - 1];
      SumZeros(n - 1);
    }
  }

  /** The users of the transactions that have an instant: their senders and receivers. */
  function Parties(txs: seq<Tx>): set<string>
  {
    if txs == [] then {}
    else
      var t := txs[|txs| - 1];
      Parties(txs[..|txs| - 1]) + (if HasTime(t) then {t.senderId, t.receiverId} else {})
  }

  /** The number of flagged transactions that have an instant. */
  function FlaggedCount(txs: seq<Tx>): nat
  {
    if txs == [] then 0
    else FlaggedCount(txs[..|txs| - 1]) + (if HasTime(txs[|txs| - 1]) && txs[|txs| - 1].status == "flagged" then 1 else 0)
  }

  lemma TimesFromFront(txs: seq<Tx>, lo: int)
    requires txs != [] && TimesFrom(txs, lo)
    ensures TimesFrom(txs[..|txs| - 1], lo)
  {
    var front := txs[..|txs| - 1];
    forall k | 0 <= k < |front| && HasTime(front[k]) ensures lo <= front[k].time.value {
      assert front[k] == txs[k];
    }
  }

  /** Every transaction with an instant is counted once in the transaction row; the
      flagged row counts the flagged ones and never exceeds the transaction row in any
      bin. */
  lemma {:induction false} TallyTxTotals(txs: seq<Tx>, lo: int, span: int)
    requires span >= 1 && TimesFrom(txs, lo)
    ensures var h := TallyOf(txs, lo, span);
      && Sum(h.txs) == |Times(txs)|
      && Sum(h.flagged) == FlaggedCount(txs)
      && (forall b :: 0 <= b < Bins ==> h.flagged[b] <= h.txs[b])
  {
    if txs == [] {
      SumZeros(Bins);
      assert Zeros()[..Bins] == Zeros();
    } else {
      var front, t := txs[..|txs| - 1], txs[|txs| - 1];
      TimesFromFront(txs, lo);
      TallyTxTotals(front, lo, span);
      var h0 := TallyOf(front, lo, span);
      if HasTime(t) {
        var b := BinOf(t.time.value, lo, span);
        SumBump(h0.txs, b);
        if t.status == "flagged" {
          SumBump(h0.flagged, b);
        }
      }
    }
  }

  /** One pass adds the sender and the receiver of a transaction with an instant to
      the users counted, and counts each of them once if new. */
  lemma UserStep(h: Tally, t: Tx, lo: int, span: int)
    requires |h.txs| == Bins && |h.flagged| == Bins && |h.users| == Bins && span >= 1
    requires HasTime(t) ==> lo <= t.time.value
    requires Sum(h.users) == |h.seen|
    ensures var h' := TallyStep(h, t, lo, span);
      h'.seen == h.seen + (if HasTime(t) then {t.senderId, t.receiverId} else {}) && Sum(h'.users) == |h'.seen|
  {
    if HasTime(t) {
      var b := BinOf(t.time.value, lo, span);
      var u1 := if t.senderId in h.seen then h.users else Bump(h.users, b);
      var seen1 := h.seen + {t.senderId};
      MarkUser(h.users, h.seen, t.senderId, b);
      MarkUser(u1, seen1, t.receiverId, b);
      assert seen1 + {t.receiverId} == h.seen + {t.senderId, t.receiverId};
    } else {
      assert h.seen + {} == h.seen;
    }
  }

  /** Counting an id once if new keeps the row's total equal to the ids seen. */
  lemma MarkUser(users: seq<nat>, seen: set<string>, id: string, b: nat)
    requires b < |users| && Sum(users) == |seen|
    ensures |if id in seen then users else Bump(users, b)| == |users|
    ensures Sum(if id in seen then users else Bump(users, b)) == |seen + {id}|
  {
    if id in seen {
      assert seen + {id} == seen;
    } else {
      SumBump(users, b);
    }
  }

  /** The user row counts every sender and receiver of a transaction with an instant
      exactly once overall (which bin holds each is TallyUserBins). */
  lemma {:induction false} TallyUserTotals(txs: seq<Tx>, lo: int, span: int)
    requires span >= 1 && TimesFrom(txs, lo)
    ensures var h := TallyOf(txs, lo, span);
      h.seen == Parties(txs) && Sum(h.users) == |h.seen|
  {
    if txs == [] {
      SumZeros(Bins);
      assert Zeros()[..Bins] == Zeros();
    } else {
      var front, t := txs[..|txs| - 1], txs[|txs| - 1];
      TimesFromFront(txs, lo);
      TallyUserTotals(front, lo, span);
      UserStep(TallyOf(front, lo, span), t, lo, span);
    }
  }

  // ---------------- what each bin holds ----------------

  /** The number of transactions with an instant that falls in bin b. */
  function TxsIn(txs: seq<Tx>, lo: int, span: int, b: nat): nat
    requires span >= 1 && TimesFrom(txs, lo)
  {
    if txs == [] then 0
    else
      var t := txs[|txs| - 1];
      TimesFromFront(txs, lo);
      TxsIn(txs[..|txs| - 1], lo, span, b) + (if HasTime(t) && BinOf(t.time.value, lo, span) == b then 1 else 0)
  }

  /** The number of flagged transactions with an instant that falls in bin b. */
  function FlaggedIn(txs: seq<Tx>, lo: int, span: int, b: nat): nat
    requires span >= 1 && TimesFrom(txs, lo)
  {
    if txs == [] then 0
    else
      var t := txs[|txs| - 1];
      TimesFromFront(txs, lo);
      FlaggedIn(txs[..|txs| - 1], lo, span, b)
        + (if HasTime(t) && t.status == "flagged" && BinOf(t.time.value, lo, span) == b then 1 else 0)
  }

  /** Bin b of the transaction row and of the flagged row count exactly the
      transactions, and the flagged transactions, whose instant falls in bin b. */
  lemma {:induction false} TallyTxBins(txs: seq<Tx>, lo: int, span: int, b: nat)
    requires span >= 1 && TimesFrom(txs, lo) && b < Bins
    ensures TallyOf(txs, lo, span).txs[b] == TxsIn(txs, lo, span, b)
    ensures TallyOf(txs, lo, span).flagged[b] == FlaggedIn(txs, lo, span, b)
  {
    if txs != [] {
      TimesFromFront(txs, lo);
      TallyTxBins(txs[..|txs| - 1], lo, span, b);
    }
  }

  /** Transaction t involves user u. */
  predicate Involves(t: Tx, u: string)
  {
    t.senderId == u || t.receiverId == u
  }

  /** The bin of the first transaction with an instant that involves u. */
  function FirstBin(txs: seq<Tx>, lo: int, span: int, u: string): (b: nat)
    requires span >= 1 && TimesFrom(txs, lo) && u in Parties(txs)
    ensures b < Bins
  {
    var front, t := txs[..|txs| - 1], txs[|txs| - 1];
    TimesFromFront(txs, lo);
    if u in Parties(front) then FirstBin(front, lo, span, u)
    else BinOf(t.time.value, lo, span)
  }

  /** The users counted in bin b: those whose first transaction with an instant falls in it. */
  function UsersIn(txs: seq<Tx>, lo: int, span: int, b: nat): set<string>
    requires span >= 1 && TimesFrom(txs, lo)
  {
    set u | u in Parties(txs) && FirstBin(txs, lo, span, u) == b
  }

  lemma {:induction false} PartiesSound(txs: seq<Tx>, u: string) returns (k: nat)
    requires u in Parties(txs)
    ensures k < |txs| && HasTime(txs[k]) && Involves(txs[k], u)
  {
    var front := txs[..|txs| - 1];
    if u in Parties(front) {
      k := PartiesSound(front, u);
    } else {
      k := |txs| - 1;
    }
  }

  /** FirstBin is the bin of the earliest transaction with an instant that involves u. */
  lemma {:induction false} FirstBinIsFirst(txs: seq<Tx>, lo: int, span: int, u: string, k: nat)
    requires span >= 1 && TimesFrom(txs, lo)
    requires k < |txs| && HasTime(txs[k]) && Involves(txs[k], u)
    requires forall m :: 0 <= m < k ==> !(HasTime(txs[m]) && Involves(txs[m], u))
    ensures u in Parties(txs)
    ensures FirstBin(txs, lo, span, u) == BinOf(txs[k].time.value, lo, span)
  {
    var front := txs[..|txs| - 1];
    TimesFromFront(txs, lo);
    if k < |front| {
      assert front[k] == txs[k];
      FirstBinIsFirst(front, lo, span, u, k);
    } else if u in Parties(front) {
      var m := PartiesSound(front, u);
      assert false;
    }
  }

  /** A transaction without an instant changes no bin's users. */
  lemma UsersInUntimed(txs: seq<Tx>, lo: int, span: int, b: nat)
    requires span >= 1 && TimesFrom(txs, lo) && txs != [] && !HasTime(txs[|txs| - 1])
    ensures TimesFrom(txs[..|txs| - 1], lo)
    ensures UsersIn(txs, lo, span, b) == UsersIn(txs[..|txs| - 1], lo, span, b)
  {
    TimesFromFront(txs, lo);
    assert Parties(txs) == Parties(txs[..|txs| - 1]);
  }

  /** A transaction with an instant adds its new parties to its own bin and to no other. */
  lemma UsersInTimed(txs: seq<Tx>, lo: int, span: int, b: nat)
    requires span >= 1 && TimesFrom(txs, lo) && txs != [] && HasTime(txs[|txs| - 1])
    ensures TimesFrom(txs[..|txs| - 1], lo)
    ensures var front, t := txs[..|txs| - 1], txs[|txs| - 1];
      UsersIn(txs, lo, span, b) == UsersIn(front, lo, span, b)
        + (if BinOf(t.time.value, lo, span) == b then {t.senderId, t.receiverId} - Parties(front) else {})
  {
    TimesFromFront(txs, lo);
  }

  /** Counting u once in bin c when new, against the users already seen. */
  lemma MarkUserIn(users: seq<nat>, seen: set<string>, id: string, c: nat, b: nat, s: set<string>)
    requires c < |users| && b < |users| && s <= seen && users[b] == |s|
    ensures var u := if id in seen then users else Bump(users, c);
      u[b] == |s + (if c == b && id !in seen then {id} else {})|
  {
    if c == b && id !in seen {
      assert id !in s;
    } else {
      assert s + {} == s;
    }
  }

  /** Adding the new ones of a sender and a receiver to users already seen. */
  lemma NewParties(s: set<string>, seen: set<string>, a: string, r: string)
    requires s <= seen
    ensures |s + ({a, r} - seen)| == |s| + (if a in seen then 0 else 1) + (if r in seen + {a} then 0 else 1)
  {
    if a in seen && r in seen + {a} {
      assert {a, r} - seen == {};
    } else if a in seen {
      assert {a, r} - seen == {r} && r !in s;
    } else if r in seen + {a} {
      assert {a, r} - seen == {a} && a !in s;
    } else {
      assert {a, r} - seen == {a} + {r} && a !in s && r !in s + {a};
    }
  }

  /** One pass adds to bin b of the user row the new parties of the transaction when
      it falls in bin b, and nothing otherwise. */
  lemma UserBinStep(h: Tally, t: Tx, lo: int, span: int, b: nat, s: set<string>)
    requires |h.txs| == Bins && |h.flagged| == Bins && |h.users| == Bins && span >= 1
    requires HasTime(t) ==> lo <= t.time.value
    requires b < Bins && s <= h.seen && h.users[b] == |s|
    ensures TallyStep(h, t, lo, span).users[b]
         == |s + (if HasTime(t) && BinOf(t.time.value, lo, span) == b then {t.senderId, t.receiverId} - h.seen else {})|
  {
    if HasTime(t) {
      var c := BinOf(t.time.value, lo, span);
      var snd, rcv := t.senderId, t.receiverId;
      var u1 := if snd in h.seen then h.users else Bump(h.users, c);
      var u2 := if rcv in h.seen + {snd} then u1 else Bump(u1, c);
      assert TallyStep(h, t, lo, span).users == u2;
      var n1 := if snd in h.seen then 0 else 1;
      var n2 := if rcv in h.seen + {snd} then 0 else 1;
      assert u1[b] == h.users[b] + (if c == b then n1 else 0);
      assert u2[b] == u1[b] + (if c == b then n2 else 0);
      if c == b {
        NewParties(s, h.seen, snd, rcv);
      } else {
        assert s + {} == s;
      }
    } else {
      assert s + {} == s;
    }
  }

  /** Bin b of the user row counts exactly the users whose first transaction with an
      instant falls in bin b; the sender and receiver of one transaction share its bin. */
  lemma {:induction false} TallyUserBins(txs: seq<Tx>, lo: int, span: int, b: nat)
    requires span >= 1 && TimesFrom(txs, lo) && b < Bins
    ensures UsersIn(txs, lo, span, b) <= Parties(txs)
    ensures TallyOf(txs, lo, span).users[b] == |UsersIn(txs, lo, span, b)|
  {
    if txs == [] {
      assert UsersIn(txs, lo, span, b) == {};
    } else {
      var front, t := txs[..|txs| - 1], txs[|txs| - 1];
      TimesFromFront(txs, lo);
      TallyUserBins(front, lo, span, b);
      TallyUserTotals(front, lo, span);
      UserBinStep(TallyOf(front, lo, span), t, lo, span, b, UsersIn(front, lo, span, b));
      if HasTime(t) {
        UsersInTimed(txs, lo, span, b);
      } else {
        UsersInUntimed(txs, lo, span, b);
      }
    }
  }

  /** Later instants never land in earlier bins. */
  lemma BinMonotone(a: int, b: int, lo: int, span: int)
    requires lo <= a <= b && span >= 1
    ensures BinOf(a, lo, span) <= BinOf(b, lo, span)
  {
    assert (a - lo) * Bins <= (b - lo) * Bins;
    DivMonotone((a - lo) * Bins, (b - lo) * Bins, span);
  }

  lemma DivMonotone(x: int, y: int, d: int)
    requires 0 <= x <= y && d >= 1
    ensures x / d <= y / d
  {
    var q1, r1 := x / d, x % d;
    var q2, r2 := y / d, y % d;
    assert x == d * q1 + r1 && 0 <= r1 < d;
    assert y == d * q2 + r2 && 0 <= r2 < d;
    if q1 > q2 {
      MulLe(d, q2 + 1, q1);
      assert false;
    }
  }

  lemma MulLe(d: int, a: int, b: int)
    requires d >= 0 && a <= b
    ensures d * a <= d * b
  {
    assert d * b - d * a == d * (b - a);
  }

  /** The earliest instant is in the first bin; when the instants differ, the latest
      is in the last bin; when they are all equal, everything is in the first bin. */
  lemma BinEnds(lo: int, hi: int)
    requires lo <= hi
    ensures BinOf(lo, lo, Span(lo, hi)) == 0
    ensures lo < hi ==> BinOf(hi, lo, Span(lo, hi)) == Bins - 1
    ensures lo == hi ==> BinOf(hi, lo, Span(lo, hi)) == 0
  {
    if lo < hi {
      assert ((hi - lo) * Bins) / (hi - lo) == Bins;
    }
  }

  /** The bars exist exactly when something was fetched, and then every instant is
      counted once. */
  lemma BarsTotals(txs: seq<Tx>)
    ensures BarsOf(txs).None? <==> txs == []
    ensures BarsOf(txs).Some? ==> var r := BarsOf(txs).value;
      && |r.txs| == Bins && |r.flagged| == Bins && |r.users| == Bins
      && Sum(r.txs) == |Times(txs)|
      && Sum(r.flagged) == FlaggedCount(txs)
      && Sum(r.users) == |Parties(txs)|
  {
    if txs != [] {
      var ts := Times(txs);
      if ts == [] {
        SumZeros(Bins);
        assert Zeros()[..Bins] == Zeros();
        NoTimesNoParties(txs);
      } else {
        var lo, hi := MinOf(ts), MaxOf(ts);
        TimesAbove(txs, lo);
        TallyTxTotals(txs, lo, Span(lo, hi));
        TallyUserTotals(txs, lo, Span(lo, hi));
      }
    }
  }

  /** In the chart, bin b counts the transactions and flagged transactions whose
      instant falls in it, and the users first seen in it, over the range of the
      instants the chart records. */
  lemma BarsBins(txs: seq<Tx>, b: nat)
    requires b < Bins
    ensures BarsOf(txs).Some? ==> var r := BarsOf(txs).value;
      && r.span >= 1 && TimesFrom(txs, r.lo)
      && r.txs[b] == TxsIn(txs, r.lo, r.span, b)
      && r.flagged[b] == FlaggedIn(txs, r.lo, r.span, b)
      && r.users[b] == |UsersIn(txs, r.lo, r.span, b)|
  {
    if txs != [] {
      var ts := Times(txs);
      if ts == [] {
        NoTimesNone(txs, b);
      } else {
        var lo, hi := MinOf(ts), MaxOf(ts);
        TimesAbove(txs, lo);
        TallyTxBins(txs, lo, Span(lo, hi), b);
        TallyUserBins(txs, lo, Span(lo, hi), b);
      }
    }
  }

  /** With no instants, every bin is empty whatever the range. */
  lemma {:induction false} NoTimesNone(txs: seq<Tx>, b: nat)
    requires Times(txs) == []
    ensures TimesFrom(txs, 0)
    ensures TxsIn(txs, 0, 1, b) == 0 && FlaggedIn(txs, 0, 1, b) == 0 && UsersIn(txs, 0, 1, b) == {}
  {
    NoTimesNoParties(txs);
    if txs != [] {
      NoTimesNone(txs[..|txs| - 1], b);
    }
  }

  lemma {:induction false} NoTimesNoParties(txs: seq<Tx>)
    requires Times(txs) == []
    ensures Parties(txs) == {} && FlaggedCount(txs) == 0
  {
    if txs != [] {
      NoTimesNoParties(txs[..|txs| - 1]);
    }
  }
}

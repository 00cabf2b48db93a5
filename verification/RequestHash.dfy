/** The strings that identify requests: the text fed to the digest of a posting, and the plain hashes of
    captures and reversals.  Different requests never share a hash, so a reused key is always noticed. */
module RequestHash {
  import T = LedgerTables

  datatype Money = Money(minor: int, currency: string)
  datatype MoneyLeg = MoneyLeg(accountId: string, amount: Money)

  datatype Request =
    | Posting(ty: T.TxnType, legs: seq<MoneyLeg>)
    | Capture(holdId: string)
    | Reverse(transactionId: string)

  function TypeName(ty: T.TxnType): string {
    match ty
    case Credit => "credit"
    case Debit => "debit"
    case Transfer => "transfer"
    case Reversal => "reversal"
  }

  // ---------- decimal numbers ----------

  const DIGITS := "0123456789"

  function Digits(n: nat): (s: string)
    ensures s != [] && forall i | 0 <= i < |s| :: s[i] in DIGITS
  {
    if n < 10 then [DIGITS[n]] else Digits(n / 10) + [DIGITS[n % 10]]
  }

  function Decimal(n: int): string { if n < 0 then "-" + Digits(-n) else Digits(n) }

  function DigitValue(c: char): nat
    requires c in DIGITS
  {
    (c - '0') as nat
  }

  function Value(s: string): nat
    requires forall i | 0 <= i < |s| :: s[i] in DIGITS
  {
    if s == [] then 0 else 10 * Value(s[..|s| - 1]) + DigitValue(s[|s| - 1])
  }

  lemma {:induction false} DigitsRoundTrip(n: nat)
    ensures Value(Digits(n)) == n
  {
    var s := Digits(n);
    if n < 10 {
      assert s[..|s| - 1] == [];
    } else {
      assert s[..|s| - 1] == Digits(n / 10);
      DigitsRoundTrip(n / 10);
    }
  }

  lemma {:induction false} DigitsInjective(m: nat, n: nat)
    requires Digits(m) == Digits(n)
    ensures m == n
  {
    DigitsRoundTrip(m);
    DigitsRoundTrip(n);
  }

  lemma {:induction false} SignShows(n: int)
    ensures Decimal(n) != []
    ensures n < 0 <==> Decimal(n)[0] == '-'
    ensures n < 0 ==> Decimal(n)[1..] == Digits(-n)
  {
  }

  lemma {:induction false} DecimalInjective(m: int, n: int)
    requires Decimal(m) == Decimal(n)
    ensures m == n
  {
    SignShows(m);
    SignShows(n);
    if m < 0 { DigitsInjective(-m, -n); } else { DigitsInjective(m, n); }
  }

  // ---------- the text fed to the digest ----------

  function AmountText(amount: Money): string { ":" + Decimal(amount.minor) + ":" + amount.currency + ";" }

  function LegText(leg: MoneyLeg): string { leg.accountId + AmountText(leg.amount) }

  function LegsText(legs: seq<MoneyLeg>): string {
    if legs == [] then "" else LegText(legs[0]) + LegsText(legs[1..])
  }

  function PostingText(ty: T.TxnType, legs: seq<MoneyLeg>): string { TypeName(ty) + LegsText(legs) }

  /** A UUID in text form and a three-letter currency code. */
  predicate WellFormed(leg: MoneyLeg) { |leg.accountId| == 36 && |leg.amount.currency| == 3 }

  predicate AllWellFormed(legs: seq<MoneyLeg>) { forall i | 0 <= i < |legs| :: WellFormed(legs[i]) }

  /** The text is written piece by piece, one leg after the other. */
  method WritePosting(ty: T.TxnType, legs: seq<MoneyLeg>) returns (written: string)
    ensures written == PostingText(ty, legs)
  {
    written := TypeName(ty);
    for i := 0 to |legs|
      invariant written + LegsText(legs[i..]) == PostingText(ty, legs)
    {
      Unfold(written, legs, i);
      written := written + legs[i].accountId;
      written := written + AmountText(legs[i].amount);
    }
  }

  lemma {:induction false} Unfold(written: string, legs: seq<MoneyLeg>, i: nat)
    requires i < |legs|
    ensures written + LegsText(legs[i..]) ==
      written + legs[i].accountId + AmountText(legs[i].amount) + LegsText(legs[i + 1..])
  {
  }

  /** Where one text has its first colon, a longer colon-free beginning of the other would have one too. */
  lemma {:induction false} ColonShows(a: string, x: string, b: string, y: string)
    requires a + ":" + x == b + ":" + y
    ensures |a| < |b| ==> b[|a|] == ':'
  {
    var s, u := a + ":" + x, b + ":" + y;
    assert s[|a|] == ':';
    if |a| < |b| { assert u[|a|] == b[|a|]; }
  }

  /** A colon ends a number: two numbers followed by a colon agree when the texts agree. */
  lemma {:induction false} NumberEndsAtColon(a: string, x: string, b: string, y: string)
    requires a + ":" + x == b + ":" + y
    requires ':' !in a && ':' !in b
    ensures a == b && x == y
  {
    ColonShows(a, x, b, y);
    ColonShows(b, y, a, x);
    SplitAt(a + ":", x, b + ":", y);
    SplitAt(a, ":", b, ":");
  }

  lemma {:induction false} DecimalHasNoColon(n: int)
    ensures ':' !in Decimal(n)
  {
  }

  lemma {:induction false} SplitAt(a: string, x: string, b: string, y: string)
    requires a + x == b + y && |a| == |b|
    ensures a == b && x == y
  {
    assert a == (a + x)[..|a|] && b == (b + y)[..|b|];
    assert x == (a + x)[|a|..] && y == (b + y)[|b|..];
  }

  lemma {:induction false} FirstLegIsDetermined(l1: MoneyLeg, rest1: string, l2: MoneyLeg, rest2: string)
    requires WellFormed(l1) && WellFormed(l2)
    requires LegText(l1) + rest1 == LegText(l2) + rest2
    ensures l1 == l2 && rest1 == rest2
  {
    var d1, d2 := Decimal(l1.amount.minor), Decimal(l2.amount.minor);
    var t1, t2 := l1.amount.currency + ";" + rest1, l2.amount.currency + ";" + rest2;
    assert LegText(l1) + rest1 == l1.accountId + (":" + (d1 + ":" + t1));
    assert LegText(l2) + rest2 == l2.accountId + (":" + (d2 + ":" + t2));
    SplitAt(l1.accountId, ":" + (d1 + ":" + t1), l2.accountId, ":" + (d2 + ":" + t2));
    SplitAt(":", d1 + ":" + t1, ":", d2 + ":" + t2);
    DecimalHasNoColon(l1.amount.minor);
    DecimalHasNoColon(l2.amount.minor);
    NumberEndsAtColon(d1, t1, d2, t2);
    DecimalInjective(l1.amount.minor, l2.amount.minor);
    assert t1 == l1.amount.currency + (";" + rest1) && t2 == l2.amount.currency + (";" + rest2);
    SplitAt(l1.amount.currency, ";" + rest1, l2.amount.currency, ";" + rest2);
    SplitAt(";", rest1, ";", rest2);
  }

  lemma {:induction false} SomeLegSomeText(legs: seq<MoneyLeg>)
    requires legs != []
    ensures |LegsText(legs)| > 0
  {
  }

  lemma {:induction false} LegsTextDecodes(legs1: seq<MoneyLeg>, legs2: seq<MoneyLeg>)
    requires AllWellFormed(legs1) && AllWellFormed(legs2)
    requires LegsText(legs1) == LegsText(legs2)
    ensures legs1 == legs2
  {
    if legs1 != [] { SomeLegSomeText(legs1); }
    if legs2 != [] { SomeLegSomeText(legs2); }
    if legs1 != [] {
      FirstLegIsDetermined(legs1[0], LegsText(legs1[1..]), legs2[0], LegsText(legs2[1..]));
      LegsTextDecodes(legs1[1..], legs2[1..]);
      assert legs1 == [legs1[0]] + legs1[1..] && legs2 == [legs2[0]] + legs2[1..];
    }
  }

  /** Two postings of UUID accounts and three-letter currencies that write the same text are the same
      posting: same type, same legs in the same order. */
  lemma {:induction false} PostingTextDecodes(ty1: T.TxnType, legs1: seq<MoneyLeg>, ty2: T.TxnType, legs2: seq<MoneyLeg>)
    requires AllWellFormed(legs1) && AllWellFormed(legs2)
    requires PostingText(ty1, legs1) == PostingText(ty2, legs2)
    ensures ty1 == ty2 && legs1 == legs2
  {
    assert PostingText(ty1, legs1)[0] == TypeName(ty1)[0];
    assert PostingText(ty2, legs2)[0] == TypeName(ty2)[0];
    assert ty1 == ty2;
    SplitAt(TypeName(ty1), LegsText(legs1), TypeName(ty2), LegsText(legs2));
    LegsTextDecodes(legs1, legs2);
  }

  /** Without fixed-length account ids the text is ambiguous. */
  lemma {:induction false} FreeFormAccountsCollide()
    ensures var one := MoneyLeg("a", Money(1, "NGN"));
      var two := MoneyLeg("b", Money(2, "NGN"));
      var merged := MoneyLeg("a:1:NGN;b", Money(2, "NGN"));
      PostingText(T.Transfer, [one, two]) == PostingText(T.Transfer, [merged])
  {
    var one, two := MoneyLeg("a", Money(1, "NGN")), MoneyLeg("b", Money(2, "NGN"));
    var merged := MoneyLeg("a:1:NGN;b", Money(2, "NGN"));
    assert Digits(1) == "1" && Digits(2) == "2";
    assert [one, two][1..] == [two] && [two][1..] == [] && [merged][1..] == [];
    assert LegsText([two]) == LegText(two) + "" == "b:2:NGN;";
    assert LegsText([merged]) == LegText(merged) + "" == "a:1:NGN;b:2:NGN;";
    assert LegsText([one, two]) == LegText(one) + LegsText([two]) == "a:1:NGN;" + "b:2:NGN;";
  }

  // ---------- the stored hashes ----------

  const HEX := "0123456789abcdef"

  /** A digest in lower-case hexadecimal that never maps two texts to one value. */
  ghost predicate CollisionFreeHex(digest: string -> string) {
    && (forall s :: digest(s) != [] && forall i | 0 <= i < |digest(s)| :: digest(s)[i] in HEX)
    && (forall s1, s2 | digest(s1) == digest(s2) :: s1 == s2)
  }

  function Hash(digest: string -> string, r: Request): string {
    match r
    case Posting(ty, legs) => digest(PostingText(ty, legs))
    case Capture(holdId) => "capture:" + holdId
    case Reverse(transactionId) => "reversal:" + transactionId
  }

  ghost predicate Valid(r: Request) { r.Posting? ==> AllWellFormed(r.legs) }

  lemma {:induction false} PlainIsNoDigest(digest: string -> string, text: string, r: Request)
    requires CollisionFreeHex(digest) && !r.Posting?
    ensures digest(text) != Hash(digest, r)
  {
    var prefix := if r.Capture? then "capture:" else "reversal:";
    assert Hash(digest, r)[|prefix| - 1] == ':';
    assert ':' !in HEX;
  }

  lemma {:induction false} PlainFirstLetter(digest: string -> string, r: Request)
    requires !r.Posting?
    ensures Hash(digest, r) != [] && Hash(digest, r)[0] == if r.Capture? then 'c' else 'r'
  {
  }

  /** Requests with equal hashes are equal, whatever their kinds: a key reused for another operation, or
      for the same operation with other arguments, always shows a different hash. */
  lemma {:induction false} HashIdentifiesRequest(digest: string -> string, r1: Request, r2: Request)
    requires CollisionFreeHex(digest) && Valid(r1) && Valid(r2)
    requires Hash(digest, r1) == Hash(digest, r2)
    ensures r1 == r2
  {
    if r1.Posting? && r2.Posting? {
      PostingTextDecodes(r1.ty, r1.legs, r2.ty, r2.legs);
    } else if r1.Posting? {
      PlainIsNoDigest(digest, PostingText(r1.ty, r1.legs), r2);
    } else if r2.Posting? {
      PlainIsNoDigest(digest, PostingText(r2.ty, r2.legs), r1);
    } else {
      PlainFirstLetter(digest, r1);
      PlainFirstLetter(digest, r2);
      if r1.Capture? {
        SplitAt("capture:", r1.holdId, "capture:", r2.holdId);
      } else {
        SplitAt("reversal:", r1.transactionId, "reversal:", r2.transactionId);
      }
    }
  }

  // ---------- the hashes the ledger's tables keep ----------

  /** The text ids that stand behind the rows' positions. */
  datatype Names = Names(hold: T.HoldId -> string, txn: T.TxnId -> string)

  ghost predicate Distinct(names: Names) {
    && (forall h1: T.HoldId, h2: T.HoldId | names.hold(h1) == names.hold(h2) :: h1 == h2)
    && (forall t1: T.TxnId, t2: T.TxnId | names.txn(t1) == names.txn(t2) :: t1 == t2)
  }

  function InNaira(legs: seq<T.Leg>): seq<MoneyLeg> {
    seq(|legs|, i requires 0 <= i < |legs| => MoneyLeg(legs[i].account, Money(legs[i].amount, "NGN")))
  }

  function Asked(names: Names, h: T.RequestHash): Request {
    match h
    case LegsHash(ty, legs) => Posting(ty, InNaira(legs))
    case CaptureHash(hold) => Capture(names.hold(hold))
    case ReversalHash(original) => Reverse(names.txn(original))
  }

  predicate UuidAccounts(h: T.RequestHash) { h.LegsHash? ==> forall i | 0 <= i < |h.legs| :: |h.legs[i].account| == 36 }

  lemma {:induction false} SameInNaira(legs1: seq<T.Leg>, legs2: seq<T.Leg>)
    requires InNaira(legs1) == InNaira(legs2)
    ensures legs1 == legs2
  {
    assert |InNaira(legs1)| == |InNaira(legs2)|;
    forall i | 0 <= i < |legs1| ensures legs1[i] == legs2[i] {
      assert InNaira(legs1)[i] == InNaira(legs2)[i];
    }
  }

  /** The tables compare requests; the database compares strings.  They agree: two stored strings are equal exactly when
      the requests they stand for are. */
  lemma {:induction false} StoredHashAgrees(digest: string -> string, names: Names, h1: T.RequestHash, h2: T.RequestHash)
    requires CollisionFreeHex(digest) && Distinct(names) && UuidAccounts(h1) && UuidAccounts(h2)
    ensures Hash(digest, Asked(names, h1)) == Hash(digest, Asked(names, h2)) <==> h1 == h2
  {
    if Hash(digest, Asked(names, h1)) == Hash(digest, Asked(names, h2)) {
      HashIdentifiesRequest(digest, Asked(names, h1), Asked(names, h2));
      if h1.LegsHash? { SameInNaira(h1.legs, h2.legs); }
    }
  }
}

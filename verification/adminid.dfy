/**
 * Sequential admin ids: a counter document `counters/adminId` whose `currentId`
 * is read, incremented (starting at 1 when the document is absent), written
 * back, and formatted as `AD` followed by the number left-padded with '0' to
 * three digits.
 */
module AdminId {
  import opened Basics
  import opened Http

  const DatabaseNotAvailable := "Database not available"
  const InternalServerError := "Internal server error"

  // ---------------------------------------------------------------------------
  // Formatting: `AD${n.toString().padStart(3, '0')}`
  // ---------------------------------------------------------------------------

  predicate IsDigit(c: char) {
    '0' <= c <= '9'
  }

  predicate AllDigits(s: string) {
    forall i :: 0 <= i < |s| ==> IsDigit(s[i])
  }

  function DigitChar(d: nat): (c: char)
    requires d < 10
    ensures IsDigit(c)
  {
    ('0' as int + d) as char
  }

  function DigitValue(c: char): (d: nat)
    requires IsDigit(c)
    ensures d < 10
  {
    c as int - '0' as int
  }

  /** `n.toString()` for a non-negative integer: its decimal digits, no leading zero. */
  function Decimal(n: nat): (s: string)
    ensures 1 <= |s|
    ensures AllDigits(s)
    ensures |s| > 1 ==> s[0] != '0'
    decreases n
  {
    if n < 10 then [DigitChar(n)] else Decimal(n / 10) + [DigitChar(n % 10)]
  }

  /** The number a string of decimal digits denotes; leading zeros are allowed. */
  function DigitsValue(s: string): nat
    requires AllDigits(s)
  {
    if s == [] then 0 else DigitsValue(s[..|s| - 1]) * 10 + DigitValue(s[|s| - 1])
  }

  function Repeat(c: char, k: nat): (r: string)
    ensures |r| == k
    ensures forall i :: 0 <= i < k ==> r[i] == c
  {
    if k == 0 then [] else [c] + Repeat(c, k - 1)
  }

  /** `s.padStart(width, fill)` with a one-character fill string. */
  function PadStart(s: string, width: nat, fill: char): (r: string)
    ensures |r| == if |s| >= width then |s| else width
    ensures r[|r| - |s|..] == s
    ensures forall i :: 0 <= i < |r| - |s| ==> r[i] == fill
  {
    if |s| >= width then s else Repeat(fill, width - |s|) + s
  }

  /** The admin id for counter value `n`. */
  function FormatAdminId(n: nat): (id: string)
    ensures |id| >= 5
    ensures id[..2] == "AD"
    ensures AllDigits(id[2..])
    ensures |id| == 2 + (if |Decimal(n)| >= 3 then |Decimal(n)| else 3)
    ensures id[|id| - |Decimal(n)|..] == Decimal(n)
  {
    "AD" + PadStart(Decimal(n), 3, '0')
  }

  /** Reads the counter value back out of an admin id. */
  function ParseAdminId(id: string): (n: Option<nat>)
    ensures n.Some? ==> |id| >= 5 && id[..2] == "AD"
  {
    if |id| >= 5 && id[..2] == "AD" && AllDigits(id[2..]) then Some(DigitsValue(id[2..])) else None
  }

  lemma {:induction false} DecimalValue(n: nat)
    ensures DigitsValue(Decimal(n)) == n
    decreases n
  {
    if n >= 10 {
      DecimalValue(n / 10);
      var s := Decimal(n);
      assert s[..|s| - 1] == Decimal(n / 10);
    }
  }

  lemma {:induction false} LeadingZerosValue(k: nat, s: string)
    requires AllDigits(s)
    ensures AllDigits(Repeat('0', k) + s)
    ensures DigitsValue(Repeat('0', k) + s) == DigitsValue(s)
    decreases |s| + k
  {
    var z := Repeat('0', k);
    if s == [] {
      assert z + s == z;
      if k > 0 {
        LeadingZerosValue(k - 1, s);
        assert z[..k - 1] == Repeat('0', k - 1) + s;
      }
    } else {
      var init := s[..|s| - 1];
      LeadingZerosValue(k, init);
      assert (z + s)[..|z + s| - 1] == z + init;
    }
  }

  /** The id encodes exactly its counter value: `ParseAdminId` inverts `FormatAdminId`. */
  lemma ParseFormat(n: nat)
    ensures ParseAdminId(FormatAdminId(n)) == Some(n)
  {
    var d := Decimal(n);
    var id := FormatAdminId(n);
    DecimalValue(n);
    if |d| >= 3 {
      assert id[2..] == d;
    } else {
      LeadingZerosValue(3 - |d|, d);
      assert id[2..] == Repeat('0', 3 - |d|) + d;
    }
  }

  /** Distinct counter values give distinct ids, whatever their size. */
  lemma FormatInjective(a: nat, b: nat)
    ensures FormatAdminId(a) == FormatAdminId(b) ==> a == b
  {
    ParseFormat(a);
    ParseFormat(b);
  }

  /** Ids stay exactly five characters (`AD` and three digits) below 1000 and grow, never truncated, from 1000 on. */
  lemma {:induction false} FormatWidth(n: nat)
    ensures n < 1000 ==> |FormatAdminId(n)| == 5
    ensures n >= 1000 ==> |FormatAdminId(n)| == 2 + |Decimal(n)| > 5
  {
    DecimalLength(n);
  }

  lemma {:induction false} DecimalLength(n: nat)
    ensures n < 1000 <==> |Decimal(n)| <= 3
    decreases n
  {
    if n >= 10 {
      DecimalLength(n / 10);
    }
  }

  /** The first id ever issued. */
  lemma FirstAdminId()
    ensures FormatAdminId(1) == "AD001"
  {
  }

  predicate StrictlyIncreasing(s: seq<nat>) {
    forall i, j :: 0 <= i < j < |s| ==> s[i] < s[j]
  }

  /** A strictly increasing run of counter values never issues the same id twice. */
  lemma IssuedIdsDistinct(issued: seq<nat>)
    requires StrictlyIncreasing(issued)
    ensures forall i, j :: 0 <= i < j < |issued| ==> FormatAdminId(issued[i]) != FormatAdminId(issued[j])
  {
    forall i, j | 0 <= i < j < |issued|
      ensures FormatAdminId(issued[i]) != FormatAdminId(issued[j])
    {
      FormatInjective(issued[i], issued[j]);
    }
  }

  // ---------------------------------------------------------------------------
  // The counter document
  // ---------------------------------------------------------------------------

  /**
   * The `counters/adminId` document: `currentId` is None while the document does
   * not exist. `issued` records, for the proof only, every number this object
   * has handed out, in order.
   */
  class AdminCounter {
    var currentId: Option<nat>
    ghost var issued: seq<nat>

    ghost predicate Valid()
      reads this
    {
      StrictlyIncreasing(issued)
      && (issued != [] ==> currentId.Some? && issued[|issued| - 1] == currentId.value)
    }

    constructor (stored: Option<nat>)
      ensures Valid() && currentId == stored && issued == []
    {
      currentId := stored;
      issued := [];
    }

    /** Read the counter, add one (1 for a missing document), and write the new value back. */
    method Next() returns (n: nat)
      requires Valid()
      modifies this
      ensures Valid()
      ensures old(currentId).None? ==> n == 1
      ensures old(currentId).Some? ==> n == old(currentId).value + 1
      ensures currentId == Some(n)
      ensures issued == old(issued) + [n]
      ensures forall m :: m in old(issued) ==> m < n
    {
      n := 1;
      if currentId.Some? {
        n := currentId.value + 1;
      }
      currentId := Some(n);
      issued := issued + [n];
    }
  }

  /**
   * `generateSequentialAdminId`: `counterRef` is null when the database is not
   * available; `dbError` is the error `getDoc` or `setDoc` throws, if any.
   */
  method GenerateSequentialAdminId(counterRef: AdminCounter?, dbError: Option<string>)
    returns (r: Result<string>)
    requires counterRef != null ==> counterRef.Valid()
    modifies counterRef
    ensures counterRef != null ==> counterRef.Valid()
    ensures counterRef == null ==> r == Failure(DatabaseNotAvailable)
    ensures counterRef != null && dbError.Some? ==> r == Failure(dbError.value) && unchanged(counterRef)
    ensures r.Success? <==> counterRef != null && dbError.None?
    ensures r.Success? ==> counterRef.currentId.Some?
    ensures r.Success? ==> ParseAdminId(r.value) == Some(counterRef.currentId.value)
    ensures r.Success? ==> r.value == FormatAdminId(counterRef.currentId.value)
    ensures r.Success? && old(counterRef.currentId).None? ==> counterRef.currentId == Some(1)
    ensures r.Success? && old(counterRef.currentId).Some? ==>
              counterRef.currentId == Some(old(counterRef.currentId).value + 1)
  {
    if counterRef == null {
      return Failure(DatabaseNotAvailable);
    }
    if dbError.Some? {
      return Failure(dbError.value);
    }
    var n := counterRef.Next();
    ParseFormat(n);
    r := Success(FormatAdminId(n));
  }

  datatype AdminIdIssued = AdminIdIssued(success: bool, adminId: string)

  /** `POST /api/users/generate-admin-id`. */
  method Post(counterRef: AdminCounter?, dbError: Option<string>) returns (resp: Response<AdminIdIssued>)
    requires counterRef != null ==> counterRef.Valid()
    modifies counterRef
    ensures counterRef != null ==> counterRef.Valid()
    ensures resp.Ok? <==> counterRef != null && dbError.None?
    ensures resp.Ok? ==> resp.body.success && counterRef.currentId.Some?
    ensures resp.Ok? ==> resp.body.adminId == FormatAdminId(counterRef.currentId.value)
    ensures !resp.Ok? ==> resp == ServerError(InternalServerError, None)
    ensures !resp.Ok? && counterRef != null ==> unchanged(counterRef)
  {
    var r := GenerateSequentialAdminId(counterRef, dbError);
    match r
    case Success(id) => resp := Ok(AdminIdIssued(true, id));
    case Failure(_) => resp := ServerError(InternalServerError, None);
  }
}

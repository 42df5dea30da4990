/** The identifier builder of the lending mapping: an event record is keyed by
    the block number and the log index of the event, each rendered in decimal
    (as BigInt.toString renders a non-negative value) and joined by '-'. */
module EventIds {
  import opened Wrappers

  predicate IsDigit(c: char) {
    '0' <= c <= '9'
  }

  predicate AllDigits(s: string) {
    forall i | 0 <= i < |s| :: IsDigit(s[i])
  }

  function DigitValue(c: char): nat
    requires IsDigit(c)
  {
    c as int - '0' as int
  }

  function DigitChar(d: nat): (c: char)
    requires d < 10
    ensures IsDigit(c) && DigitValue(c) == d
  {
    ('0' as int + d) as char
  }

  /** The decimal rendering of n: most significant digit first, at least one
      digit, and no leading zero unless n is 0. */
  function NatToDecimal(n: nat): (s: string)
    ensures |s| >= 1 && AllDigits(s)
    ensures |s| > 1 ==> s[0] != '0'
    ensures n < 10 <==> |s| == 1
  {
    if n < 10 then [DigitChar(n)] else NatToDecimal(n / 10) + [DigitChar(n % 10)]
  }

  /** The value a string of decimal digits denotes; the inverse of NatToDecimal. */
  function DecimalValue(s: string): nat
    requires AllDigits(s)
  {
    if |s| == 0 then 0 else DecimalValue(s[..|s| - 1]) * 10 + DigitValue(s[|s| - 1])
  }

  lemma {:induction false} DecimalRoundTrip(n: nat)
    ensures DecimalValue(NatToDecimal(n)) == n
  {
    var s := NatToDecimal(n);
    if n >= 10 {
      assert s[..|s| - 1] == NatToDecimal(n / 10);
      DecimalRoundTrip(n / 10);
    }
  }

  /** Two numbers render the same exactly when they are equal. */
  lemma NatToDecimalInjective(a: nat, b: nat)
    ensures NatToDecimal(a) == NatToDecimal(b) <==> a == b
  {
    DecimalRoundTrip(a);
    DecimalRoundTrip(b);
  }

  /** The record id `<block>-<logIndex>` that createEventID builds. */
  function CreateEventId(blockNumber: nat, logIndex: nat): string {
    NatToDecimal(blockNumber) + "-" + NatToDecimal(logIndex)
  }

  /** The position of the first '-' in s, if there is one. */
  function FirstDash(s: string): (r: Option<nat>)
    ensures r.Some? ==> r.value < |s| && s[r.value] == '-'
    ensures r.Some? ==> forall j | 0 <= j < r.value :: s[j] != '-'
    ensures r.None? ==> forall j | 0 <= j < |s| :: s[j] != '-'
  {
    if |s| == 0 then None
    else if s[0] == '-' then Some(0)
    else match FirstDash(s[1..])
      case None => None
      case Some(k) => Some(k + 1)
  }

  /** Reads a record id back into its block number and log index; None when
      the string is not two non-empty digit strings joined by '-'. */
  function ParseEventId(id: string): Option<(nat, nat)> {
    match FirstDash(id)
    case None => None
    case Some(k) =>
      var blockPart, logPart := id[..k], id[k + 1..];
      if |blockPart| > 0 && |logPart| > 0 && AllDigits(blockPart) && AllDigits(logPart)
      then Some((DecimalValue(blockPart), DecimalValue(logPart)))
      else None
  }

  /** The id names its event: the block number and log index can be read
      back, because digits contain no '-'. */
  lemma EventIdRoundTrip(blockNumber: nat, logIndex: nat)
    ensures ParseEventId(CreateEventId(blockNumber, logIndex)) == Some((blockNumber, logIndex))
  {
    var b, l := NatToDecimal(blockNumber), NatToDecimal(logIndex);
    var id := CreateEventId(blockNumber, logIndex);
    assert id[|b|] == '-';
    assert forall j | 0 <= j < |b| :: id[j] == b[j];
    assert FirstDash(id) == Some(|b|);
    assert id[..|b|] == b;
    assert id[|b| + 1..] == l;
    DecimalRoundTrip(blockNumber);
    DecimalRoundTrip(logIndex);
  }

  /** Distinct (block, logIndex) pairs give distinct ids, and the same pair
      always gives the same id, so a replayed event collides with itself. */
  lemma EventIdInjective(b1: nat, l1: nat, b2: nat, l2: nat)
    ensures CreateEventId(b1, l1) == CreateEventId(b2, l2) <==> b1 == b2 && l1 == l2
  {
    if CreateEventId(b1, l1) == CreateEventId(b2, l2) {
      EventIdRoundTrip(b1, l1);
      EventIdRoundTrip(b2, l2);
    }
  }

  /** The ids of the events at block 100, log index 2; block 101, log
      index 0; and block 7, log index 1. */
  lemma EventIdExample()
    ensures CreateEventId(100, 2) == "100-2"
    ensures CreateEventId(101, 0) == "101-0"
    ensures CreateEventId(7, 1) == "7-1"
  {
    assert NatToDecimal(1) == "1";
    assert NatToDecimal(10) == "10";
    assert NatToDecimal(100) == "100";
  }
}

/**
  The commands the thermostat sends to the MiniSafe2 gateway, and `Gateway`, a recording
  stand-in for the gateway client that keeps every command it was asked to send.
  Also JavaScript's conversion of an integer to text, which builds the target-temperature
  command, with its inverse.
 */
module MiniSafe {
  import opened Wrappers

  datatype Command =
    /** `sendGenericCommandWithValue(sid, field, value)` */
    | WithValue(sid: string, field: string, value: string)
    /** `sendGenericCommand(sid, command)` */
    | Opaque(sid: string, command: string)

  class Gateway {
    var sent: seq<Command>

    constructor ()
      ensures sent == []
    {
      sent := [];
    }

    method SendGenericCommandWithValue(sid: string, field: string, value: string)
      modifies this
      ensures sent == old(sent) + [WithValue(sid, field, value)]
    {
      sent := sent + [WithValue(sid, field, value)];
    }

    method SendGenericCommand(sid: string, command: string)
      modifies this
      ensures sent == old(sent) + [Opaque(sid, command)]
    {
      sent := sent + [Opaque(sid, command)];
    }
  }

  predicate IsDigit(c: char) {
    '0' <= c <= '9'
  }

  predicate AllDigits(s: string) {
    forall k :: 0 <= k < |s| ==> IsDigit(s[k])
  }

  function DigitChar(d: nat): (c: char)
    requires d < 10
    ensures IsDigit(c) && c as int - '0' as int == d
  {
    ('0' as int + d) as char
  }

  /** The decimal digits of `n`, most significant first, without leading zeros. */
  function NatToDecimal(n: nat): (s: string)
    ensures 1 <= |s| && AllDigits(s)
    ensures |s| > 1 ==> s[0] != '0'
  {
    if n < 10 then [DigitChar(n)] else NatToDecimal(n / 10) + [DigitChar(n % 10)]
  }

  /** `String(n)` for an integer `n`: a minus sign for negatives, then the digits. */
  function IntToDecimal(n: int): (s: string)
    ensures 1 <= |s|
    ensures s[0] == '-' <==> n < 0
    ensures var digits := if n < 0 then s[1..] else s;
      AllDigits(digits) && 1 <= |digits| && (|digits| > 1 ==> digits[0] != '0')
  {
    if n < 0 then
      var digits := NatToDecimal(-n);
      assert ("-" + digits)[1..] == digits;
      "-" + digits
    else NatToDecimal(n)
  }

  function DecimalToNat(s: string): nat
    requires AllDigits(s)
  {
    if s == [] then 0 else DecimalToNat(s[..|s| - 1]) * 10 + (s[|s| - 1] as int - '0' as int)
  }

  /** Reads back what `IntToDecimal` writes; anything else is `None`. */
  function ParseDecimal(s: string): Option<int>
  {
    if 1 < |s| && s[0] == '-' && AllDigits(s[1..]) then Some(0 - DecimalToNat(s[1..]) as int)
    else if 1 <= |s| && AllDigits(s) then Some(DecimalToNat(s) as int)
    else None
  }

  lemma {:induction false} NatDecimalRoundTrip(n: nat)
    ensures DecimalToNat(NatToDecimal(n)) == n
  {
    var s := NatToDecimal(n);
    if n >= 10 {
      NatDecimalRoundTrip(n / 10);
      assert s[..|s| - 1] == NatToDecimal(n / 10);
    }
  }

  /** Integer-to-text never loses information: the text reads back as the same integer. */
  lemma IntDecimalRoundTrip(n: int)
    ensures ParseDecimal(IntToDecimal(n)) == Some(n)
  {
    var s := IntToDecimal(n);
    if n < 0 {
      assert s[1..] == NatToDecimal(-n);
      NatDecimalRoundTrip(-n);
    } else {
      NatDecimalRoundTrip(n);
    }
  }
}

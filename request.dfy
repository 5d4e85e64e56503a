/** The read command of the iSerial protocol: "/?" + the 12-character meter
    number + the request code + "!\r\n" (lib/ekm-omnimeter/meter.rb, `initialize`,
    `request_a`, `request_b`). */
module Request {
  import opened Wrappers
  import opened RubyText

  /** The two register requests; a complete read needs both. */
  datatype Variant = A | B

  function VariantCode(v: Variant): (c: string)
    ensures |c| == 2
  {
    match v
    case A => "00"
    case B => "01"
  }

  /** `meter_number.to_s.rjust(12, '0')`: fill with '0' on the left up to 12
      characters; a longer number is kept whole. */
  function PadMeterNumber(n: string): (r: string)
    ensures |r| == if |n| >= 12 then |n| else 12
    ensures r[|r| - |n|..] == n
    ensures forall i :: 0 <= i < |r| - |n| ==> r[i] == '0'
  {
    if |n| >= 12 then n else Zeros(12 - |n|) + n
  }

  /** The command written to the meter for one variant. */
  function RequestText(id: string, v: Variant): string
  {
    "/?" + id + VariantCode(v) + "!\r\n"
  }

  /** Reading a command back: its meter number and variant, or None when the
      text is not a read command. A reference for what RequestText writes. */
  function ParseRequest(r: string): Option<(string, Variant)>
  {
    if |r| >= 7 && r[..2] == "/?" && r[|r| - 3..] == "!\r\n" then
      var code := r[|r| - 5..|r| - 3];
      if code == "00" then Some((r[2..|r| - 5], A))
      else if code == "01" then Some((r[2..|r| - 5], B))
      else None
    else None
  }

  /** A command is RequestText(id, v) exactly when it reads back as (id, v). */
  lemma RequestRoundTrip(id: string, v: Variant, r: string)
    ensures ParseRequest(r) == Some((id, v)) <==> r == RequestText(id, v)
  {
    var t := RequestText(id, v);
    assert t[..2] == "/?";
    assert t[|t| - 3..] == "!\r\n";
    assert t[|t| - 5..|t| - 3] == VariantCode(v);
    assert t[2..|t| - 5] == id;
    if ParseRequest(r) == Some((id, v)) {
      assert r == r[..2] + r[2..|r| - 5] + r[|r| - 5..|r| - 3] + r[|r| - 3..];
    }
  }

  /** With a meter number of at most 12 characters every command is 19
      characters long and carries the number, zero-filled, at offsets 2..13. */
  lemma RequestLayout(n: string, v: Variant)
    requires |n| <= 12
    ensures |RequestText(PadMeterNumber(n), v)| == 19
    ensures RequestText(PadMeterNumber(n), v)[2..14] == PadMeterNumber(n)
    ensures RequestText(PadMeterNumber(n), v)[14..16] == VariantCode(v)
  {
    var p := PadMeterNumber(n);
    assert |p| == 12;
    var t := RequestText(p, v);
    assert t == "/?" + p + VariantCode(v) + "!\r\n";
    assert t[2..14] == p;
    assert t[14..16] == VariantCode(v);
  }

  /** Zero-filling does not change the number a digit string denotes, and
      filling twice is filling once. */
  lemma PadPreservesNumber(n: string)
    requires AllDigits(n)
    ensures ToI(PadMeterNumber(n)) == ToI(n)
    ensures PadMeterNumber(PadMeterNumber(n)) == PadMeterNumber(n)
  {
    var p := PadMeterNumber(n);
    ToIDigits(n);
    if |n| < 12 {
      var z := Zeros(12 - |n|) + n;
      assert p == z;
      DigitsValueZeros(12 - |n|, n);
      ToIDigits(z);
    }
    assert |p| >= 12;
  }
}

/** Values shared by every part of the booking service model: optional
    values, record ids, JavaScript truthiness of request fields, and the
    shape of an HTTP reply. */
module Common {

  datatype Option<+T> = None | Some(value: T)

  /** A document id (a MongoDB ObjectId, as its hex string). */
  type Id = string

  /** JavaScript truthiness of an optional string field: `undefined` and
      `""` are falsy, every other string is truthy. */
  predicate TruthyStr(o: Option<string>) {
    o.Some? && o.value != ""
  }

  /** JavaScript truthiness of an optional number field: `undefined` and
      `0` are falsy. Numbers are modelled as integers. */
  predicate TruthyNum(o: Option<int>) {
    o.Some? && o.value != 0
  }

  /** An HTTP reply: status code, the `message` field, and an optional
      data payload. */
  datatype Reply<+T> = Reply(status: int, message: string, data: Option<T>)

  /** An HTTP reply for a list endpoint: the count field and the rows. */
  datatype ListReply<+T> = ListReply(status: int, message: string, total: nat, data: seq<T>)

  /** The decimal text of a natural number. This is how a JavaScript
      template literal renders a safe integer (at most 2^53); larger
      numbers are rounded, and from 1e21 on written in exponent form. */
  function NatToString(n: nat): (s: string)
    ensures |s| >= 1
    ensures forall i :: 0 <= i < |s| ==> '0' <= s[i] <= '9'
    decreases n
  {
    var d := [(('0' as int) + n % 10) as char];
    if n < 10 then d else NatToString(n / 10) + d
  }

  /** The number a string of decimal digits denotes. */
  function DigitsValue(s: string): nat
    requires forall i :: 0 <= i < |s| ==> '0' <= s[i] <= '9'
  {
    if |s| == 0 then 0
    else DigitsValue(s[..|s| - 1]) * 10 + ((s[|s| - 1] as int) - ('0' as int))
  }

  /** Reading back the rendered digits gives the number. */
  lemma {:induction false} NatToStringRoundTrip(n: nat)
    ensures DigitsValue(NatToString(n)) == n
    decreases n
  {
    var d := [(('0' as int) + n % 10) as char];
    if n >= 10 {
      NatToStringRoundTrip(n / 10);
      var s := NatToString(n);
      assert s == NatToString(n / 10) + d;
      assert s[..|s| - 1] == NatToString(n / 10);
    }
  }

  /** The decimal text of an integer, with a leading '-' when negative. */
  function IntToString(n: int): (s: string)
    ensures |s| >= 1
    ensures (n < 0) <==> (s[0] == '-')
    ensures var digits := if n < 0 then s[1..] else s;
      (forall i :: 0 <= i < |digits| ==> '0' <= digits[i] <= '9') &&
      DigitsValue(digits) == (if n < 0 then -n else n)
  {
    NatToStringRoundTrip(if n < 0 then -n else n);
    if n < 0 then
      var s := "-" + NatToString(-n);
      assert s[1..] == NatToString(-n);
      s
    else NatToString(n)
  }
}

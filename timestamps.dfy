/** The wall-clock values that `datetime.now()` supplies, and their two renderings. */
module Timestamps {
  import opened Text

  datatype DateTime = DateTime(
    year: nat, month: nat, day: nat, hour: nat, minute: nat, second: nat, microsecond: nat)

  /** `t.isoformat()`: `YYYY-MM-DDTHH:MM:SS`, then `.ffffff` unless the microseconds are 0. */
  function IsoFormat(t: DateTime): (r: string)
    ensures |r| == if t.microsecond == 0 then 19 else 26
    ensures r[4] == '-' && r[7] == '-' && r[10] == 'T' && r[13] == ':' && r[16] == ':'
  {
    Fixed(t.year, 4) + "-" + Fixed(t.month, 2) + "-" + Fixed(t.day, 2) + "T"
    + Fixed(t.hour, 2) + ":" + Fixed(t.minute, 2) + ":" + Fixed(t.second, 2)
    + (if t.microsecond == 0 then "" else "." + Fixed(t.microsecond, 6))
  }

  /** `t.strftime('%Y%m%d_%H%M%S')`: eight digits, an underscore, six digits. */
  function Compact(t: DateTime): (r: string)
    ensures |r| == 15 && r[8] == '_'
    ensures forall i :: 0 <= i < 15 && i != 8 ==> IsDigit(r[i])
  {
    var date := Fixed(t.year, 4) + Fixed(t.month, 2) + Fixed(t.day, 2);
    var time := Fixed(t.hour, 2) + Fixed(t.minute, 2) + Fixed(t.second, 2);
    assert forall i :: 0 <= i < 8 ==> IsDigit(date[i]);
    assert forall i :: 0 <= i < 6 ==> IsDigit(time[i]);
    date + "_" + time
  }
}

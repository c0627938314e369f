/** Natural numbers as decimal text. */
module Decimals {
  import opened Options
  import opened Validate

  function Print(n: nat): (s: string)
    ensures s != "" && AllOf(s, IsDigit)
  {
    var last := ['0' + (n % 10) as char];
    if n < 10 then last else Print(n / 10) + last
  }

  function Parse(s: string): Option<nat> {
    if s == "" || !AllOf(s, IsDigit) then None else Some(ValueOf(s))
  }

  function ValueOf(s: string): nat
    requires AllOf(s, IsDigit)
  {
    if s == "" then 0 else 10 * ValueOf(s[..|s| - 1]) + (s[|s| - 1] - '0') as int
  }

  lemma {:induction false} PrintParse(n: nat)
    ensures Parse(Print(n)) == Some(n)
  {
    var s := Print(n);
    if n >= 10 {
      PrintParse(n / 10);
      assert s[..|s| - 1] == Print(n / 10);
    } else {
      assert s[..|s| - 1] == "" && s[|s| - 1] as int == '0' as int + n;
      assert ValueOf("") == 0;
    }
  }
}

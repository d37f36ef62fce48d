/** StringBuilderUtils: indentation by tab characters. */
module StringBuilderUtils {

  /** java.lang.StringBuilder: a mutable text buffer that is only ever appended to. */
  class StringBuilder {
    var contents: string

    constructor (init: string)
      ensures contents == init
    {
      contents := init;
    }

    /** StringBuilder.append(String): adds `s` at the end and returns this builder. */
    method Append(s: string) returns (r: StringBuilder)
      modifies this
      ensures r == this
      ensures contents == old(contents) + s
    {
      contents := contents + s;
      r := this;
    }
  }

  /** "\t".repeat(n): exactly n tab characters. */
  function Tabs(n: nat): (r: string)
    ensures |r| == n
    ensures forall i :: 0 <= i < n ==> r[i] == '\t'
  {
    if n == 0 then "" else Tabs(n - 1) + "\t"
  }

  /** Tabs for a sum of depths is the concatenation of the tabs for each. */
  lemma {:induction false} TabsAdd(a: nat, b: nat)
    ensures Tabs(a + b) == Tabs(a) + Tabs(b)
  {
    if b > 0 {
      TabsAdd(a, b - 1);
      assert Tabs(a + b) == Tabs(a + b - 1) + "\t";
    }
  }

  /**
   * indent(sb, repeat): appends `repeat` tabs to `sb` and returns `sb` itself.
   * String.repeat rejects a negative count, so `repeat` is a nat.
   */
  method Indent(sb: StringBuilder, repeat: nat) returns (r: StringBuilder)
    modifies sb
    ensures r == sb
    ensures sb.contents == old(sb.contents) + Tabs(repeat)
  {
    r := sb.Append(Tabs(repeat));
  }
}

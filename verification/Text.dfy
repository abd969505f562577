/** White space in texts. */
module Text {
  /** The characters of the Unicode property White_Space. */
  predicate IsSpace(c: char) {
    var code := c as int;
    || 0x09 <= code <= 0x0D || code in {0x20, 0x85, 0xA0, 0x1680}
    || 0x2000 <= code <= 0x200A || code in {0x2028, 0x2029, 0x202F, 0x205F, 0x3000}
  }

  predicate IsBlank(text: string) {
    forall i :: 0 <= i < |text| ==> IsSpace(text[i])
  }

  /** The text without white space at either end. */
  function TrimSpace(text: string): (trimmed: string)
    ensures trimmed == "" || (!IsSpace(trimmed[0]) && !IsSpace(trimmed[|trimmed| - 1]))
    ensures trimmed == "" <==> IsBlank(text)
  {
    if text == "" then ""
    else if IsSpace(text[0]) then
      assert IsBlank(text) <==> IsBlank(text[1..]) by {
        assert text == [text[0]] + text[1..];
      }
      TrimSpace(text[1..])
    else if IsSpace(text[|text| - 1]) then TrimSpace(text[..|text| - 1])
    else text
  }

  lemma LongerEnds(c: char, left: string, middle: string, right: string)
    requires IsSpace(c) && IsBlank(left) && IsBlank(right)
    ensures [c] + (left + middle + right) == ([c] + left) + middle + right && IsBlank([c] + left)
    ensures (left + middle + right) + [c] == left + middle + (right + [c]) && IsBlank(right + [c])
  {
  }

  /** Only white space is cut off, at the two ends. */
  lemma {:induction false} TrimCutsEnds(text: string) returns (left: string, right: string)
    ensures text == left + TrimSpace(text) + right && IsBlank(left) && IsBlank(right)
  {
    left, right := "", "";
    if text == "" {
    } else if IsSpace(text[0]) {
      var l, r := TrimCutsEnds(text[1..]);
      LongerEnds(text[0], l, TrimSpace(text[1..]), r);
      assert text == [text[0]] + text[1..];
      left, right := [text[0]] + l, r;
    } else if IsSpace(text[|text| - 1]) {
      var last := |text| - 1;
      var l, r := TrimCutsEnds(text[..last]);
      LongerEnds(text[last], l, TrimSpace(text[..last]), r);
      assert text == text[..last] + [text[last]];
      left, right := l, r + [text[last]];
    }
  }
}

/** JavaScript strings: sequences of UTF-16 code units, and their UTF-8 size. */
module Text {

  type CodeUnit = x: int | 0 <= x < 0x10000
  type Text = seq<CodeUnit>

  const CR: CodeUnit := 13
  const LF: CodeUnit := 10
  const NUL: CodeUnit := 0

  predicate IsHigh(u: CodeUnit) { 0xD800 <= u < 0xDC00 }

  predicate IsLow(u: CodeUnit) { 0xDC00 <= u < 0xE000 }

  /** `Buffer.byteLength(text, "utf8")`; a lone surrogate is written as the three bytes of U+FFFD. */
  function Utf8Length(t: Text): nat {
    if t == [] then 0
    else if |t| >= 2 && IsHigh(t[0]) && IsLow(t[1]) then 4 + Utf8Length(t[2..])
    else (if t[0] < 0x80 then 1 else if t[0] < 0x800 then 2 else 3) + Utf8Length(t[1..])
  }

  /** `!text.includes("\0") && Buffer.byteLength(text) <= max`. */
  predicate IsSafe(t: Text, max: nat) {
    NUL !in t && Utf8Length(t) <= max
  }
}

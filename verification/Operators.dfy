/** Arithmetic and comparison of 32-bit integers, as both interpreters compute them. */
module Operators {
  import opened Ast

  const ARITHMETIC_OPS: seq<string> := ["+", "-", "*", "/", "%"]
  const COMPARISON_OPS: seq<string> := ["<=", ">=", ">", "<"]

  predicate Int32(x: int) { -0x8000_0000 <= x < 0x8000_0000 }

  // Division by zero, and the one quotient that is no 32-bit number.
  predicate Traps(name: string, x: int, y: int) {
    (name == "/" || name == "%") && (y == 0 || (x == -0x8000_0000 && y == -1))
  }

  // Division truncates toward zero.
  function Quotient(x: int, y: int): int
    requires y != 0
  {
    if x >= 0 then (if y > 0 then x / y else -(x / -y))
    else (if y > 0 then -(-x / y) else -x / -y)
  }

  function Remainder(x: int, y: int): int
    requires y != 0
  {
    x - y * Quotient(x, y)
  }

  function Arithmetic(name: string, x: int, y: int): (r: int)
    requires name in ARITHMETIC_OPS && !Traps(name, x, y)
    ensures Int32(r)
  {
    Wrap32(if name == "+" then x + y
           else if name == "-" then x - y
           else if name == "*" then x * y
           else if name == "/" then Quotient(x, y)
           else Remainder(x, y))
  }

  predicate Compares(name: string, x: int, y: int)
    requires name in COMPARISON_OPS
  {
    if name == "<=" then x <= y
    else if name == ">=" then x >= y
    else if name == ">" then x > y
    else x < y
  }

  // Numbers that wrap around to the same 32 bits are the same.
  lemma WrapUnique(x: int, y: int)
    requires (x - y) % 0x1_0000_0000 == 0
    ensures Wrap32(x) == Wrap32(y)
  {
    var d := (x - y) / 0x1_0000_0000;
    assert x == y + d * 0x1_0000_0000;
    ModShift(y, d);
  }

  lemma ModShift(y: int, d: int)
    ensures (y + d * 0x1_0000_0000) % 0x1_0000_0000 == y % 0x1_0000_0000
  {
  }

  // Addition and subtraction undo each other even where they wrap around.
  lemma AddSubtract(x: int, y: int)
    requires Int32(x) && Int32(y)
    ensures Arithmetic("-", Arithmetic("+", x, y), y) == x
    ensures Arithmetic("+", Arithmetic("-", x, y), y) == x
    ensures Arithmetic("+", x, y) == Arithmetic("+", y, x)
    ensures Arithmetic("+", x, 0) == x && Arithmetic("-", x, x) == 0
  {
    WrapUnique(Wrap32(x + y) - y, x);
    WrapUnique(Wrap32(x - y) + y, x);
  }

  // Multiplication is repeated addition.
  lemma Multiply(x: int, y: int)
    requires Int32(x) && Int32(y)
    ensures Arithmetic("*", x, 0) == 0 && Arithmetic("*", x, y) == Arithmetic("*", y, x)
    ensures Arithmetic("*", x, Arithmetic("+", y, 1)) == Arithmetic("+", Arithmetic("*", x, y), x)
  {
    assert x * y == y * x;
    var z := Wrap32(y + 1);
    var c := (z - (y + 1)) / 0x1_0000_0000;
    assert z == y + 1 + c * 0x1_0000_0000;
    assert x * z == x * y + x + (x * c) * 0x1_0000_0000;
    ModShift(x * y + x, x * c);
    WrapUnique(Wrap32(x * y) + x, x * y + x);
  }

  // Dividend, divisor, quotient and remainder belong together; the remainder is smaller
  // than the divisor and has the sign of the dividend.
  lemma DivideRemainder(x: int, y: int)
    requires Int32(x) && Int32(y) && !Traps("/", x, y)
    ensures var q, r := Arithmetic("/", x, y), Arithmetic("%", x, y);
            && x == y * q + r && Abs(r) < Abs(y) && (if x >= 0 then 0 <= r else r <= 0)
  {
    hide Quotient;
    Truncates(x, y);
  }

  lemma Truncates(x: int, y: int)
    requires Int32(x) && Int32(y) && !Traps("/", x, y)
    ensures Int32(Quotient(x, y)) && Abs(Remainder(x, y)) < Abs(y)
    ensures if x >= 0 then 0 <= Remainder(x, y) else Remainder(x, y) <= 0
  {
    hide Quotient;
    var n: int, k: int := Abs(y), Abs(x) / Abs(y);
    DivideNat(Abs(x), Abs(y));
    QuotientSign(x, y);
    SignedProduct(x, y, k);
  }

  lemma SignedProduct(x: int, y: int, k: int)
    ensures y * (if (x >= 0) == (y > 0) then k else -k) == if x >= 0 then Abs(y) * k else -(Abs(y) * k)
  {
  }

  function Abs(x: int): nat { if x >= 0 then x else -x }

  lemma QuotientSign(x: int, y: int)
    requires y != 0
    ensures Quotient(x, y) == if (x >= 0) == (y > 0) then Abs(x) / Abs(y) else -(Abs(x) / Abs(y))
  {
  }

  lemma DivideNat(m: nat, n: nat)
    requires n > 0
    ensures 0 <= m - n * (m / n) < n && 0 <= m / n <= m && (n > 1 ==> 2 * (m / n) <= m)
  {
    var q := m / n;
    assert m == n * q + m % n;
    TimesGrows(n, q);
  }

  lemma TimesGrows(n: nat, q: nat)
    requires n > 0
    ensures q <= n * q && (n > 1 ==> 2 * q <= n * q)
  {
    assert n * q == q + (n - 1) * q;
    if n > 1 { assert (n - 1) * q == q + (n - 2) * q; }
  }

  // The comparisons are one strict order and its variants; the next number is greater.
  lemma Order(x: int, y: int, z: int)
    ensures Compares(">", x, y) == Compares("<", y, x)
    ensures Compares("<=", x, y) == !Compares(">", x, y) && Compares(">=", x, y) == !Compares("<", x, y)
    ensures Compares("<=", x, y) && Compares(">=", x, y) <==> x == y
    ensures Compares("<", x, y) && Compares("<", y, z) ==> Compares("<", x, z)
    ensures Int32(x) && x != 0x7FFF_FFFF ==> Compares("<", x, Arithmetic("+", x, 1))
  {
  }
}

/**
  Python's `str.split(sep)` with a one-character separator and its inverse
  `sep.join(...)`, used where the name of a procedure or trigger is cut out of
  its CREATE statement.
*/
module Texto {

  /** `s.split(sep)`: the pieces between separators, in order, empty pieces kept. */
  function Dividir(s: string, sep: char): (r: seq<string>)
    ensures |r| >= 1
    ensures forall k | 0 <= k < |r| :: sep !in r[k]
    ensures forall k, c | 0 <= k < |r| && c in r[k] :: c in s
  {
    if s == [] then [[]]
    else
      var resto := Dividir(s[1..], sep);
      assert forall c | c in s[1..] :: c in s;
      if s[0] == sep then [[]] + resto
      else [[s[0]] + resto[0]] + resto[1..]
  }

  /** `sep.join(pedacos)`. */
  function Juntar(pedacos: seq<string>, sep: char): string {
    if pedacos == [] then []
    else if |pedacos| == 1 then pedacos[0]
    else pedacos[0] + [sep] + Juntar(pedacos[1..], sep)
  }

  lemma JuntarPrimeiro(x: string, y: string, resto: seq<string>, sep: char)
    ensures Juntar([x + y] + resto, sep) == x + Juntar([y] + resto, sep)
  {
    if resto != [] {
      assert ([x + y] + resto)[1..] == resto;
      assert ([y] + resto)[1..] == resto;
    }
  }

  /** Splitting loses nothing: joining the pieces back gives the original text. */
  lemma {:induction false} JuntarDividir(s: string, sep: char)
    ensures Juntar(Dividir(s, sep), sep) == s
  {
    if s != [] {
      var resto := Dividir(s[1..], sep);
      JuntarDividir(s[1..], sep);
      if s[0] == sep {
        assert ([[]] + resto)[1..] == resto;
      } else {
        assert resto == [resto[0]] + resto[1..];
        JuntarPrimeiro([s[0]], resto[0], resto[1..], sep);
      }
    }
  }

  /** Text without the separator stays glued to the first piece of what follows it. */
  lemma {:induction false} DividirPrefixo(a: string, b: string, sep: char)
    requires sep !in a
    ensures Dividir(a + b, sep) == [a + Dividir(b, sep)[0]] + Dividir(b, sep)[1..]
  {
    if a == [] {
      var d := Dividir(b, sep);
      assert a + b == b && a + d[0] == d[0];
      assert d == [d[0]] + d[1..];
    } else {
      assert (a + b)[0] == a[0];
      assert (a + b)[1..] == a[1..] + b;
      DividirPrefixo(a[1..], b, sep);
      assert [a[0]] + (a[1..] + Dividir(b, sep)[0]) == a + Dividir(b, sep)[0];
    }
  }

  /** A separator right after separator-free text ends the first piece there. */
  lemma DividirNoSeparador(a: string, b: string, sep: char)
    requires sep !in a
    ensures Dividir(a + [sep] + b, sep) == [a] + Dividir(b, sep)
  {
    assert a + [sep] + b == a + ([sep] + b);
    DividirPrefixo(a, [sep] + b, sep);
    assert ([sep] + b)[1..] == b;
    assert Dividir([sep] + b, sep) == [[]] + Dividir(b, sep);
    assert a + [] == a;
  }
}

/**
 * How `/bin/sh` splits the command string that `child_process.exec` hands it into
 * arguments, simplified to its core: unquoted runs of spaces separate words.
 */
module Shell {

  /** The longest prefix of `s` that holds no space. */
  function Word(s: string): (w: string)
    ensures |w| <= |s| && w == s[..|w|]
    ensures ' ' !in w
    ensures |w| < |s| ==> s[|w|] == ' '
  {
    if s == [] || s[0] == ' ' then [] else [s[0]] + Word(s[1..])
  }

  /** The words the shell sees in `s`: every maximal run of non-space characters, in order. */
  function Words(s: string): (ws: seq<string>)
    ensures forall i :: 0 <= i < |ws| ==> ws[i] != [] && ' ' !in ws[i]
    decreases |s|
  {
    if s == [] then []
    else if s[0] == ' ' then Words(s[1..])
    else
      var w := Word(s);
      [w] + Words(s[|w|..])
  }

  /** A word that passes through the shell as one argument. */
  predicate IsWord(w: string)
  {
    w != [] && ' ' !in w
  }

  /** Words joined by single spaces, as a command template writes them. */
  function Unwords(ws: seq<string>): string
  {
    if ws == [] then [] else if |ws| == 1 then ws[0] else ws[0] + " " + Unwords(ws[1..])
  }

  /** A space-free prefix followed by the end or by a space is exactly the first word. */
  lemma {:induction false} WordOfPrefix(w: string, rest: string)
    requires ' ' !in w
    requires rest == [] || rest[0] == ' '
    ensures Word(w + rest) == w
  {
    if w != [] {
      assert (w + rest)[1..] == w[1..] + rest;
      WordOfPrefix(w[1..], rest);
    } else {
      assert w + rest == rest;
    }
  }

  /** The shell recovers exactly the joined words when each is a proper word. */
  lemma {:induction false} WordsOfUnwords(ws: seq<string>)
    requires forall i :: 0 <= i < |ws| ==> IsWord(ws[i])
    ensures Words(Unwords(ws)) == ws
  {
    if |ws| == 1 {
      WordOfPrefix(ws[0], []);
      assert ws[0] + [] == ws[0];
      assert ws[0][|ws[0]|..] == [];
    } else if |ws| > 1 {
      var w, u := ws[0], Unwords(ws[1..]);
      var s := w + " " + u;
      assert s == w + (" " + u);
      WordOfPrefix(w, " " + u);
      assert s[|w|..] == " " + u;
      assert (" " + u)[1..] == u;
      WordsOfUnwords(ws[1..]);
      assert Words(s) == [w] + Words(" " + u);
    }
  }

  /** One step of unfolding `Unwords` at position `i`. */
  lemma UnwordsAt(ws: seq<string>, i: nat)
    requires i + 1 < |ws|
    ensures Unwords(ws[i..]) == ws[i] + " " + Unwords(ws[i + 1..])
  {
    assert ws[i..][1..] == ws[i + 1..];
  }

  /** Replacing the word `a + " " + b` at position `k` by the two words `a`, `b` keeps the string. */
  lemma {:induction false} UnwordsSplit(ws: seq<string>, split: seq<string>, k: nat, a: string, b: string)
    requires k + 1 < |ws| && ws[k] == a + " " + b
    requires split == ws[..k] + [a, b] + ws[k + 1..]
    ensures Unwords(ws) == Unwords(split)
  {
    if k == 0 {
      assert split[1..] == [b] + ws[1..];
      assert split[2..] == ws[1..];
      assert ws[1..] != [];
      assert Unwords(split) == a + " " + (b + " " + Unwords(ws[1..]));
    } else {
      UnwordsSplit(ws[1..], split[1..], k - 1, a, b) by {
        assert ws[1..][..k - 1] == ws[1..k];
        assert ws[1..][k..] == ws[k + 1..];
        assert split[1..] == ws[1..][..k - 1] + [a, b] + ws[1..][k..];
      }
      assert split[0] == ws[0];
    }
  }
}

/** Text cut at dots: the words of routing keys and the parts of tokens (strings.Split). */
module DottedText {
  predicate DotFree(s: string) {
    forall i :: 0 <= i < |s| ==> s[i] != '.'
  }

  /** The parts between dots; there is always at least one. */
  function Words(s: string): (w: seq<string>)
    ensures w != []
    ensures forall i :: 0 <= i < |w| ==> DotFree(w[i])
  {
    if s == "" then [""]
    else
      var rest := Words(s[1..]);
      if s[0] == '.' then [""] + rest else [[s[0]] + rest[0]] + rest[1..]
  }

  lemma {:induction false} WordsOfDotFree(s: string)
    requires DotFree(s)
    ensures Words(s) == [s]
  {
    if s != "" {
      assert s[0] != '.';
      assert forall i :: 0 <= i < |s[1..]| ==> s[1..][i] == s[i + 1];
      WordsOfDotFree(s[1..]);
      assert [s[0]] + s[1..] == s;
    }
  }

  lemma {:induction false} WordsOfPath(word: string, rest: string)
    requires DotFree(word)
    ensures Words(word + "." + rest) == [word] + Words(rest)
  {
    var s := word + "." + rest;
    if word == "" {
      assert s[0] == '.' && s[1..] == rest;
    } else {
      assert s[0] == word[0] && word[0] != '.';
      assert s[1..] == word[1..] + "." + rest;
      assert forall i :: 0 <= i < |word[1..]| ==> word[1..][i] == word[i + 1];
      WordsOfPath(word[1..], rest);
      assert [word[0]] + word[1..] == word;
    }
  }

  /** strings.Join with dots. */
  function Joined(words: seq<string>): string
    requires words != []
  {
    if |words| == 1 then words[0] else words[0] + "." + Joined(words[1..])
  }

  /** Joining the words of a text gives the text. */
  lemma {:induction false} WordsJoin(s: string)
    ensures Joined(Words(s)) == s
  {
    if s != "" {
      var rest := Words(s[1..]);
      WordsJoin(s[1..]);
      assert s == [s[0]] + s[1..];
      if s[0] == '.' {
        assert Words(s)[1..] == rest;
      } else {
        FirstWordGrows(s[0], rest);
      }
    }
  }

  lemma FirstWordGrows(c: char, words: seq<string>)
    requires words != []
    ensures Joined([[c] + words[0]] + words[1..]) == [c] + Joined(words)
  {
    var longer := [[c] + words[0]] + words[1..];
    assert longer[1..] == words[1..];
    if |words| > 1 {
      assert ([c] + words[0]) + "." + Joined(words[1..]) == [c] + (words[0] + "." + Joined(words[1..]));
    }
  }
}

/** Nation and region identifiers (`discord/lib.py`): an id is the lower-case,
    underscore-separated form of a display name, and a display name is
    rebuilt from an id by capitalising its words. */
module Lib {
  import opened Strings

  /** `normalize`: lower case, every space replaced by an underscore. */
  function Normalize(name: string): (r: string)
    ensures |r| == |name|
    ensures forall i :: 0 <= i < |name| ==>
      r[i] == if name[i] == ' ' then '_' else LowerChar(name[i])
    ensures NoChar(r, ' ')
  {
    ReplaceChar(Lower(name), ' ', '_')
  }

  /** Normalizing an id a second time changes nothing. */
  lemma NormalizeIdempotent(name: string)
    ensures Normalize(Normalize(name)) == Normalize(name)
  {
  }

  /** Short words that stay in lower case unless they open the name. */
  const LowercaseWords: seq<string> :=
    ["a", "an", "the", "and", "but", "or", "for", "nor", "on", "at", "to", "in", "of"]

  /** Two strings that differ at most in the case of their letters. */
  predicate SameUpToCase(a: string, b: string) {
    |a| == |b| && forall k :: 0 <= k < |a| ==> LowerChar(a[k]) == LowerChar(b[k])
  }

  /** `selectiveCapitalize`: the word at position `index` is capitalised,
      unless it is a listed short word that does not open the name. */
  function SelectiveCapitalize(word: string, index: nat): (r: string)
    ensures index == 0 || word !in LowercaseWords ==> r == Capitalize(word)
    ensures index != 0 && word in LowercaseWords ==> r == word
    ensures SameUpToCase(r, word)
  {
    if word in LowercaseWords && index != 0 then word else Capitalize(word)
  }

  /** The words of a display name, before they are joined with spaces. */
  function DisplayWords(id: string): (ws: seq<string>)
    ensures |ws| == |Words(ReplaceChar(id, '_', ' '))|
    ensures forall i :: 0 <= i < |ws| ==>
      ws[i] == SelectiveCapitalize(Words(ReplaceChar(id, '_', ' '))[i], i)
  {
    var parts := Words(ReplaceChar(id, '_', ' '));
    seq(|parts|, i requires 0 <= i < |parts| => SelectiveCapitalize(parts[i], i))
  }

  /** `displayName`. */
  function DisplayName(id: string): string {
    Join(" ", DisplayWords(id))
  }

  /** Spaces only ever separate two non-empty words. */
  predicate SingleSpaced(s: string) {
    (|s| > 0 ==> s[0] != ' ' && s[|s| - 1] != ' ') &&
    forall i :: 0 <= i < |s| - 1 ==> !(s[i] == ' ' && s[i + 1] == ' ')
  }

  lemma SameUpToCaseKeeps(a: string, b: string)
    requires SameUpToCase(a, b)
    ensures NoSpace(b) ==> NoSpace(a)
    ensures NoChar(b, '_') ==> NoChar(a, '_')
  {
    forall k | 0 <= k < |a|
      ensures IsSpace(a[k]) ==> IsSpace(b[k])
      ensures a[k] == '_' ==> b[k] == '_'
    {
      assert LowerChar(a[k]) == LowerChar(b[k]);
    }
  }

  /** The display words are non-empty and contain no whitespace and no underscore. */
  lemma DisplayWordsShape(id: string)
    ensures forall i :: 0 <= i < |DisplayWords(id)| ==>
      |DisplayWords(id)[i]| > 0 && NoSpace(DisplayWords(id)[i]) && NoChar(DisplayWords(id)[i], '_')
  {
    var s := ReplaceChar(id, '_', ' ');
    var parts := Words(s);
    var ws := DisplayWords(id);
    forall i | 0 <= i < |ws|
      ensures |ws[i]| > 0 && NoSpace(ws[i]) && NoChar(ws[i], '_')
    {
      WordsInside(s, i);
      SameUpToCaseKeeps(ws[i], parts[i]);
    }
  }

  /** Every word of `s.split()` is made of characters of `s`. */
  lemma {:induction false} WordsInside(s: string, i: nat)
    requires i < |Words(s)|
    ensures forall k :: 0 <= k < |Words(s)[i]| ==> Words(s)[i][k] in s
    decreases |s|
  {
    if IsSpace(s[0]) {
      WordsInside(s[1..], i);
    } else {
      var k := WordLength(s);
      if i > 0 {
        WordsInside(s[k..], i - 1);
      }
    }
  }

  lemma {:induction false} JoinSingleSpaced(ws: seq<string>)
    requires forall i :: 0 <= i < |ws| ==> |ws[i]| > 0 && NoChar(ws[i], ' ')
    ensures SingleSpaced(Join(" ", ws))
  {
    if |ws| > 1 {
      JoinSingleSpaced(ws[1..]);
      var t := Join(" ", ws[1..]);
      JoinNonEmpty(ws[1..]);
      var s := ws[0] + " " + t;
      forall i | 0 <= i < |s| - 1
        ensures !(s[i] == ' ' && s[i + 1] == ' ')
      {
        if i < |ws[0]| {
          assert s[i] == ws[0][i];
        } else if i > |ws[0]| {
          assert s[i] == t[i - |ws[0]| - 1] && s[i + 1] == t[i - |ws[0]|];
        }
      }
    }
  }

  lemma {:induction false} JoinNonEmpty(ws: seq<string>)
    requires |ws| > 0 && |ws[0]| > 0
    ensures |Join(" ", ws)| > 0 && Join(" ", ws)[0] == ws[0][0]
  {
  }

  /** `displayName(id)` has no underscore and no leading, trailing or doubled
      space, and splitting it on whitespace gives back its capitalised words. */
  lemma DisplayNameShape(id: string)
    ensures NoChar(DisplayName(id), '_')
    ensures SingleSpaced(DisplayName(id))
    ensures Words(DisplayName(id)) == DisplayWords(id)
  {
    var ws := DisplayWords(id);
    DisplayWordsShape(id);
    JoinNoChar(ws, " ", '_');
    JoinSingleSpaced(ws);
    WordsJoin(ws);
  }

  lemma {:induction false} JoinNoChar(ws: seq<string>, sep: string, c: char)
    requires NoChar(sep, c)
    requires forall i :: 0 <= i < |ws| ==> NoChar(ws[i], c)
    ensures NoChar(Join(sep, ws), c)
  {
    if |ws| > 1 {
      JoinNoChar(ws[1..], sep, c);
    }
  }

  lemma {:induction false} WordLengthBeforeSpace(w: string, t: string)
    requires NoSpace(w)
    ensures WordLength(w + " " + t) == |w|
  {
    if |w| > 0 {
      assert (w + " " + t)[1..] == w[1..] + " " + t;
      WordLengthBeforeSpace(w[1..], t);
    }
  }

  lemma {:induction false} WordLengthAll(w: string)
    requires NoSpace(w)
    ensures WordLength(w) == |w|
  {
    if |w| > 0 {
      WordLengthAll(w[1..]);
    }
  }

  /** `" ".join` and `split()` are inverse on non-empty words without whitespace. */
  lemma {:induction false} WordsJoin(ws: seq<string>)
    requires forall i :: 0 <= i < |ws| ==> |ws[i]| > 0 && NoSpace(ws[i])
    ensures Words(Join(" ", ws)) == ws
  {
    if |ws| == 1 {
      var w := ws[0];
      WordLengthAll(w);
      assert w[..|w|] == w && w[|w|..] == [];
    } else if |ws| > 1 {
      var w := ws[0];
      var t := Join(" ", ws[1..]);
      var s := w + " " + t;
      WordLengthBeforeSpace(w, t);
      assert s[..|w|] == w;
      assert s[|w|..] == " " + t;
      assert (" " + t)[1..] == t;
      WordsJoin(ws[1..]);
      assert ws == [w] + ws[1..];
    }
  }

  /** Replacing the separator character of a join replaces the separator. */
  lemma {:induction false} ReplaceCharJoin(ws: seq<string>, a: char, b: char)
    requires forall i :: 0 <= i < |ws| ==> NoChar(ws[i], a)
    ensures ReplaceChar(Join([a], ws), a, b) == Join([b], ws)
  {
    if |ws| > 1 {
      ReplaceCharJoin(ws[1..], a, b);
      var t := Join([a], ws[1..]);
      assert Join([a], ws) == ws[0] + ([a] + t);
      assert Join([b], ws) == ws[0] + ([b] + Join([b], ws[1..]));
    }
  }

  /** Lower-casing a join of capitalised words lower-cases each word. */
  lemma {:induction false} LowerJoin(caps: seq<string>, ws: seq<string>)
    requires |caps| == |ws|
    requires forall i :: 0 <= i < |ws| ==> Lower(caps[i]) == ws[i]
    ensures Lower(Join(" ", caps)) == Join(" ", ws)
  {
    if |ws| > 1 {
      LowerJoin(caps[1..], ws[1..]);
      LowerAppend(caps[0] + " ", Join(" ", caps[1..]));
      LowerAppend(caps[0], " ");
    }
  }

  /** A word of an id: non-empty, with no whitespace, no underscore and no
      upper-case letter. */
  predicate IdWord(w: string) {
    |w| > 0 && NoSpace(w) && NoChar(w, '_') && forall k :: 0 <= k < |w| ==> !IsUpper(w[k])
  }

  lemma LowerOfIdWord(w: string, r: string)
    requires IdWord(w) && SameUpToCase(r, w)
    ensures Lower(r) == w
  {
    forall k | 0 <= k < |w|
      ensures Lower(r)[k] == w[k]
    {
      assert LowerChar(r[k]) == LowerChar(w[k]);
    }
  }

  /** `normalize(displayName(id)) == id` for an id made of id words joined by
      single underscores. */
  lemma NormalizeDisplayName(ws: seq<string>)
    requires |ws| > 0
    requires forall i :: 0 <= i < |ws| ==> IdWord(ws[i])
    ensures Normalize(DisplayName(Join("_", ws))) == Join("_", ws)
  {
    var id := Join("_", ws);
    ReplaceCharJoin(ws, '_', ' ');
    assert ReplaceChar(id, '_', ' ') == Join(" ", ws);
    WordsJoin(ws);
    var caps := DisplayWords(id);
    forall i | 0 <= i < |ws|
      ensures Lower(caps[i]) == ws[i]
    {
      LowerOfIdWord(ws[i], caps[i]);
    }
    LowerJoin(caps, ws);
    ReplaceCharJoin(ws, ' ', '_');
  }
}

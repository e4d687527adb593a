/**
 * The avatar initials in the dashboard's user menu.
 */
module UserNav {
  import opened Common

  /** `parts.map((n) => n[0]).join("")`: an empty part maps to `undefined`,
      which `join` renders as nothing. */
  function FirstChars(parts: seq<string>): (r: string)
    ensures |r| <= |parts|
    ensures forall k :: 0 <= k < |r| ==> exists j :: 0 <= j < |parts| && parts[j] != "" && r[k] == parts[j][0]
  {
    if parts == [] then ""
    else
      var rest := FirstChars(parts[1..]);
      assert forall k :: 0 <= k < |rest| ==> exists j :: 1 <= j < |parts| && parts[j] != "" && rest[k] == parts[j][0] by {
        forall k | 0 <= k < |rest| ensures exists j :: 1 <= j < |parts| && parts[j] != "" && rest[k] == parts[j][0] {
          var j :| 0 <= j < |parts[1..]| && parts[1..][j] != "" && rest[k] == parts[1..][j][0];
          assert parts[j + 1] == parts[1..][j];
        }
      }
      (if parts[0] == "" then "" else [parts[0][0]]) + rest
  }

  /** The non-empty parts, in order: the words that each give one initial. */
  function Words(parts: seq<string>): (ws: seq<string>)
    ensures |ws| <= |parts|
    ensures forall k :: 0 <= k < |ws| ==> ws[k] != ""
    ensures forall w :: w in ws <==> w in parts && w != ""
  {
    if parts == [] then []
    else
      var init := parts[..|parts| - 1];
      var last := parts[|parts| - 1];
      assert parts == init + [last];
      Words(init) + (if last == "" then [] else [last])
  }

  /** A part added at the end contributes its first character, if it has one. */
  lemma {:induction false} FirstCharsSnoc(parts: seq<string>, p: string)
    ensures FirstChars(parts + [p]) == FirstChars(parts) + (if p == "" then "" else [p[0]])
  {
    if parts == [] {
      assert [p][1..] == [];
    } else {
      FirstCharsSnoc(parts[1..], p);
      assert (parts + [p])[1..] == parts[1..] + [p];
    }
  }

  /** The initials' letters are the first characters of the words, one per
      word and in order. */
  lemma {:induction false} FirstCharsAreWordHeads(parts: seq<string>)
    ensures |FirstChars(parts)| == |Words(parts)|
    ensures forall k :: 0 <= k < |Words(parts)| ==> FirstChars(parts)[k] == Words(parts)[k][0]
  {
    if parts != [] {
      var init := parts[..|parts| - 1];
      var last := parts[|parts| - 1];
      assert parts == init + [last];
      FirstCharsAreWordHeads(init);
      FirstCharsSnoc(init, last);
    }
  }

  /** `initials`: from a truthy full name, the upper-cased first letters of
      its space-separated words, at most two; otherwise the first two
      characters of the email, upper-cased. */
  function Initials(fullName: Option<string>, email: string): (r: string)
    ensures |r| <= 2
    ensures Truthy(fullName) ==> ' ' !in r
    ensures Truthy(fullName) ==>
              var ws := Words(Split(fullName.value, ' '));
              && |r| == (if |ws| < 2 then |ws| else 2)
              && forall k :: 0 <= k < |r| ==> r[k] == ToUpperChar(ws[k][0])
    ensures !Truthy(fullName) ==>
              && |r| == (if |email| < 2 then |email| else 2)
              && forall k :: 0 <= k < |r| ==> r[k] == ToUpperChar(email[k])
  {
    if Truthy(fullName) then
      var parts := Split(fullName.value, ' ');
      NameInitials(parts);
      SliceTo(ToUpper(FirstChars(parts)), 2)
    else
      ToUpper(SliceTo(email, 2))
  }

  /** The truthy-name branch of `initials`: the upper-cased first letters of
      the first two words, none of them a space. */
  lemma NameInitials(parts: seq<string>)
    requires forall k, m :: 0 <= k < |parts| && 0 <= m < |parts[k]| ==> parts[k][m] != ' '
    ensures var r := SliceTo(ToUpper(FirstChars(parts)), 2);
            var ws := Words(parts);
            && ' ' !in r
            && |r| == (if |ws| < 2 then |ws| else 2)
            && forall k :: 0 <= k < |r| ==> r[k] == ToUpperChar(ws[k][0])
  {
    var letters := FirstChars(parts);
    FirstCharsAreWordHeads(parts);
    assert ' ' !in letters by {
      forall k | 0 <= k < |letters| ensures letters[k] != ' ' {
        var j :| 0 <= j < |parts| && parts[j] != "" && letters[k] == parts[j][0];
      }
    }
    var upper := ToUpper(letters);
    assert ' ' !in upper by {
      forall k | 0 <= k < |upper| ensures upper[k] != ' ' {
        assert upper[k] == ToUpperChar(letters[k]);
      }
    }
  }

  /** A name made of words joined by single spaces gives the upper-cased
      first letters of its first two words ("Ada" gives "A", "Ada B
      Lovelace" gives "AB"). */
  lemma InitialsOfWords(ws: seq<string>, email: string)
    requires |ws| >= 1
    requires forall k :: 0 <= k < |ws| ==> ws[k] != "" && ' ' !in ws[k]
    ensures var r := Initials(Some(JoinWith(ws, ' ')), email);
            && |r| == (if |ws| < 2 then |ws| else 2)
            && forall k :: 0 <= k < |r| ==> r[k] == ToUpperChar(ws[k][0])
  {
    JoinSplit(ws, ' ');
    assert Words(ws) == ws by {
      WordsOfNonEmpty(ws);
    }
    assert JoinWith(ws, ' ') != "" by {
      if |ws| > 1 {
        assert JoinWith(ws, ' ') == ws[0] + [' '] + JoinWith(ws[1..], ' ');
      }
    }
  }

  /** Parts that are all non-empty are all words. */
  lemma {:induction false} WordsOfNonEmpty(ws: seq<string>)
    requires forall k :: 0 <= k < |ws| ==> ws[k] != ""
    ensures Words(ws) == ws
  {
    if ws != [] {
      WordsOfNonEmpty(ws[..|ws| - 1]);
      assert ws == ws[..|ws| - 1] + [ws[|ws| - 1]];
    }
  }

  /** Two words give their two first letters, upper-cased. */
  lemma TwoWords(a: string, b: string, email: string)
    requires a != "" && b != "" && ' ' !in a && ' ' !in b
    ensures Initials(Some(a + " " + b), email) == [ToUpperChar(a[0]), ToUpperChar(b[0])]
  {
    SplitFirstPart(a, b, ' ');
    SplitNoSep(b, ' ');
    assert a + " " + b == a + [' '] + b;
    assert Split(a + " " + b, ' ') == [a, b];
    assert FirstChars([a, b]) == [a[0]] + FirstChars([b]);
    assert FirstChars([b]) == [b[0]] + FirstChars([]);
  }

  lemma FirstCharsSkipsEmpty(x: string, rest: seq<string>)
    ensures FirstChars([x, ""] + rest) == FirstChars([x] + rest)
  {
    assert ([x, ""] + rest)[1..] == [""] + rest;
    assert ([""] + rest)[1..] == rest;
    assert ([x] + rest)[1..] == rest;
  }

  /** A run of spaces between two words adds no initial. */
  lemma RepeatedSpacesIgnored(a: string, b: string, email: string)
    requires a != "" && ' ' !in a
    ensures Initials(Some(a + "  " + b), email) == Initials(Some(a + " " + b), email)
  {
    var rest := Split(b, ' ');
    assert Split(a + "  " + b, ' ') == [a, ""] + rest by {
      SplitFirstPart(a, " " + b, ' ');
      SplitFirstPart("", b, ' ');
      assert a + "  " + b == a + [' '] + (" " + b);
      assert " " + b == [] + [' '] + b;
    }
    assert Split(a + " " + b, ' ') == [a] + rest by {
      SplitFirstPart(a, b, ' ');
      assert a + " " + b == a + [' '] + b;
    }
    FirstCharsSkipsEmpty(a, rest);
  }
}

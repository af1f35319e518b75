/**
 * The avatar initials of the profile menu: the full name split on single
 * spaces, the first character of each piece (nothing for an empty piece),
 * joined, upper-cased, and "U" when that leaves nothing.
 */
module UserProfile {
  import opened Wrappers

  /** The parsed `user` object; only `fullName` matters here. */
  datatype Profile = Profile(fullName: Option<string>)

  /** `s.split(" ")`: the pieces between single spaces, empty pieces included. */
  function Split(s: string): (pieces: seq<string>)
    ensures |pieces| >= 1
    ensures forall i :: 0 <= i < |pieces| ==> ' ' !in pieces[i]
  {
    if s == [] then [""]
    else
      var rest := Split(s[1..]);
      if s[0] == ' ' then [""] + rest
      else [[s[0]] + rest[0]] + rest[1..]
  }

  /** `pieces.join(" ")`: the inverse of `Split`. */
  function Join(pieces: seq<string>): string
  {
    if pieces == [] then ""
    else if |pieces| == 1 then pieces[0]
    else pieces[0] + " " + Join(pieces[1..])
  }

  /** Splitting loses nothing: joining the pieces gives the name back. */
  lemma {:induction false} JoinSplit(s: string)
    ensures Join(Split(s)) == s
  {
    if s != [] {
      var rest := Split(s[1..]);
      JoinSplit(s[1..]);
      if s[0] == ' ' {
        assert Split(s) == [""] + rest;
        assert Join(Split(s)) == "" + " " + Join(rest);
        assert s == [' '] + s[1..];
      } else {
        var pieces := Split(s);
        assert pieces == [[s[0]] + rest[0]] + rest[1..];
        if |rest| == 1 {
          assert Join(pieces) == [s[0]] + rest[0];
          assert Join(rest) == rest[0];
        } else {
          assert pieces[1..] == rest[1..];
          assert Join(pieces) == [s[0]] + rest[0] + " " + Join(rest[1..]);
          assert Join(rest) == rest[0] + " " + Join(rest[1..]);
        }
        assert s == [s[0]] + s[1..];
      }
    }
  }

  /** The number of non-empty pieces. */
  function Words(pieces: seq<string>): (n: nat)
    ensures n <= |pieces|
  {
    if pieces == [] then 0 else (if pieces[0] == "" then 0 else 1) + Words(pieces[1..])
  }

  /**
   * `.map((n) => n[0]).join("")`: an empty piece gives `undefined`, which
   * joins as "", so there is one character per non-empty piece.
   */
  function FirstChars(pieces: seq<string>): (r: string)
    ensures |r| == Words(pieces)
  {
    if pieces == [] then ""
    else (if pieces[0] == "" then "" else [pieces[0][0]]) + FirstChars(pieces[1..])
  }

  /**
   * An independent reading of the same thing, one character at a time: the
   * first character of every run of non-space characters. `inWord` says
   * whether the character before `s` was part of such a run.
   */
  function WordHeads(s: string, inWord: bool): (r: string)
    ensures |r| <= |s|
    ensures forall i :: 0 <= i < |r| ==> r[i] != ' ' && r[i] in s
  {
    if s == [] then ""
    else if s[0] == ' ' then WordHeads(s[1..], false)
    else if inWord then WordHeads(s[1..], true)
    else [s[0]] + WordHeads(s[1..], true)
  }

  /** The pieces' first characters are exactly the heads of the words. */
  lemma {:induction false} FirstCharsAreWordHeads(s: string)
    ensures FirstChars(Split(s)) == WordHeads(s, false)
    ensures FirstChars(Split(s)[1..]) == WordHeads(s, true)
  {
    if s != [] {
      var rest := Split(s[1..]);
      FirstCharsAreWordHeads(s[1..]);
      if s[0] == ' ' {
        assert Split(s) == [""] + rest;
        assert Split(s)[1..] == rest;
      } else {
        var pieces := Split(s);
        assert pieces == [[s[0]] + rest[0]] + rest[1..];
        assert pieces[1..] == rest[1..];
        assert FirstChars(rest) == (if rest[0] == "" then "" else [rest[0][0]]) + FirstChars(rest[1..]);
      }
    }
  }

  predicate AllSpaces(s: string)
  {
    forall i :: 0 <= i < |s| ==> s[i] == ' '
  }

  /** Word heads are empty exactly when the text holds only spaces. */
  lemma {:induction false} NoHeadsIffAllSpaces(s: string)
    ensures WordHeads(s, false) == "" <==> AllSpaces(s)
  {
    if s != [] {
      NoHeadsIffAllSpaces(s[1..]);
      if s[0] == ' ' {
        assert AllSpaces(s) <==> AllSpaces(s[1..]) by {
          if AllSpaces(s[1..]) {
            forall i | 0 <= i < |s| ensures s[i] == ' ' {
              if i > 0 { assert s[i] == s[1..][i - 1]; }
            }
          }
        }
      } else {
        assert !AllSpaces(s);
      }
    }
  }

  /** ASCII `toUpperCase` of one character. */
  function UpperChar(c: char): (u: char)
    ensures !('a' <= u <= 'z')
    ensures 'a' <= c <= 'z' ==> u as int == c as int - 32
    ensures !('a' <= c <= 'z') ==> u == c
  {
    if 'a' <= c <= 'z' then (c as int - 32) as char else c
  }

  /** `toUpperCase` on ASCII text. */
  function ToUpper(s: string): (r: string)
    ensures |r| == |s|
    ensures forall i :: 0 <= i < |s| ==> r[i] == UpperChar(s[i])
  {
    if s == [] then "" else [UpperChar(s[0])] + ToUpper(s[1..])
  }

  /** Text without lower-case letters is its own upper-case form. */
  lemma UpperFixed(s: string)
    requires forall i :: 0 <= i < |s| ==> !('a' <= s[i] <= 'z')
    ensures ToUpper(s) == s
  {
  }

  /** The avatar text. */
  function Initials(user: Option<Profile>): (r: string)
    ensures r != ""
    ensures forall i :: 0 <= i < |r| ==> !('a' <= r[i] <= 'z') && r[i] != ' '
    ensures user.None? || user.value.fullName.None? ==> r == "U"
  {
    if user.None? || user.value.fullName.None? then "U"
    else
      var joined := ToUpper(FirstChars(Split(user.value.fullName.value)));
      FirstCharsAreWordHeads(user.value.fullName.value);
      if joined == "" then "U" else joined
  }

  /**
   * A name with no non-space character, the empty name included, gives "U";
   * otherwise the initials are the upper-cased first characters of its words,
   * one per non-empty piece and so no more than there are pieces.
   */
  lemma InitialsOfName(name: string)
    ensures AllSpaces(name) ==> Initials(Some(Profile(Some(name)))) == "U"
    ensures !AllSpaces(name) ==>
      && Initials(Some(Profile(Some(name)))) == ToUpper(WordHeads(name, false))
      && |Initials(Some(Profile(Some(name))))| == Words(Split(name)) <= |Split(name)|
  {
    FirstCharsAreWordHeads(name);
    NoHeadsIffAllSpaces(name);
  }

  /** Initials from known word heads. */
  lemma InitialsFromHeads(name: string, heads: string)
    requires WordHeads(name, false) == heads && heads != ""
    ensures Initials(Some(Profile(Some(name)))) == ToUpper(heads)
  {
    NoHeadsIffAllSpaces(name);
    InitialsOfName(name);
  }

  /** The heads of the demo account's name "John Doe". */
  lemma DemoNameHeads()
    ensures WordHeads("John Doe", false) == "JD"
  {
    var name := "John Doe";
    assert name[1..] == "ohn Doe";
    assert name[1..][1..] == "hn Doe";
    assert name[1..][1..][1..] == "n Doe";
    assert name[1..][1..][1..][1..] == " Doe";
    assert name[1..][1..][1..][1..][1..] == "Doe";
    assert " Doe"[1..] == "Doe" && "Doe"[1..] == "oe" && "oe"[1..] == "e" && "e"[1..] == "";
  }

  /** A name of spaces gives "U". */
  lemma BlankNameInitials()
    ensures Initials(Some(Profile(Some("   ")))) == "U"
  {
    InitialsOfName("   ");
  }
}

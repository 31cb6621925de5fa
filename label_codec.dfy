/** The identity label codec of the engine helper: user names and team
    project names become Kubernetes label values and are read back from
    them.

    A user name keeps every character except the 32 characters of Python's
    `string.punctuation`, each of which becomes `-` and the two lower-case
    hex digits of its byte, and the label starts with `user-`. A team project
    name becomes the hex digits of all of its UTF-8 bytes. */
module LabelCodec {
  import opened Wrappers
  import Utf8
  import Hex

  const USER_PREFIX: string := "user-"

  /** Python's `string.punctuation`: !"#$%&'()*+,-./:;<=>?@[\]^_`{|}~ */
  predicate IsPunctuation(c: char) {
    '!' <= c <= '/' || ':' <= c <= '@' || '[' <= c <= '`' || '{' <= c <= '~'
  }

  /** The class `[0-9A-Za-z]` of the decoder's pattern. */
  predicate IsAsciiAlnum(c: char) {
    '0' <= c <= '9' || 'A' <= c <= 'Z' || 'a' <= c <= 'z'
  }

  function PunctuationCount(s: string): nat {
    if s == [] then 0 else (if IsPunctuation(s[0]) then 1 else 0) + PunctuationCount(s[1..])
  }

  /** `_convert_to_hex` on a match: `-` and the hex of the match's UTF-8
      bytes. */
  function ConvertToHex(c: char): string {
    "-" + Hex.ToHex(Utf8.Encode([c]))
  }

  /** A punctuation character is ASCII, so its escape is `-` and exactly two
      lower-case hex digits, which give back the character's code. */
  lemma ConvertToHexOfPunctuation(c: char)
    requires IsPunctuation(c)
    ensures |ConvertToHex(c)| == 3 && ConvertToHex(c)[0] == '-'
    ensures ConvertToHex(c)[1] == Hex.DIGITS[c as int / 16]
    ensures ConvertToHex(c)[2] == Hex.DIGITS[c as int % 16]
  {
    Utf8.EncodeAscii(c);
  }

  /** `convert_string_to_pod_label`: `re.sub` over the punctuation class
      with `_convert_to_hex`. The label grows by two characters per escaped
      character, and the only punctuation left in it is the `-` of the
      escapes. */
  function ConvertStringToPodLabel(value: string): (encoded: string)
    ensures |encoded| == |value| + 2 * PunctuationCount(value)
    ensures forall i :: 0 <= i < |encoded| && IsPunctuation(encoded[i]) ==> encoded[i] == '-'
  {
    if value == [] then []
    else if IsPunctuation(value[0]) then
      ConvertToHexOfPunctuation(value[0]);
      ConvertToHex(value[0]) + ConvertStringToPodLabel(value[1..])
    else
      [value[0]] + ConvertStringToPodLabel(value[1..])
  }

  /** `convert_gen3username_to_pod_label`. */
  function ConvertGen3usernameToPodLabel(username: string): (encoded: string)
    ensures |encoded| == |USER_PREFIX| + |username| + 2 * PunctuationCount(username)
    ensures encoded[..|USER_PREFIX|] == USER_PREFIX
    ensures forall i :: |USER_PREFIX| <= i < |encoded| && IsPunctuation(encoded[i]) ==> encoded[i] == '-'
  {
    USER_PREFIX + ConvertStringToPodLabel(username)
  }

  /** The encoder works character by character: the label of a
      concatenation is the concatenation of the labels. */
  lemma {:induction false} ConvertStringToPodLabelConcat(a: string, b: string)
    ensures ConvertStringToPodLabel(a + b) == ConvertStringToPodLabel(a) + ConvertStringToPodLabel(b)
  {
    if a != [] {
      assert (a + b)[0] == a[0] && (a + b)[1..] == a[1..] + b;
      ConvertStringToPodLabelConcat(a[1..], b);
    } else {
      assert a + b == b;
    }
  }

  /** The label of one character: its escape when it is punctuation, the
      character itself otherwise. */
  function EscapeOf(c: char): string {
    if IsPunctuation(c) then ['-', Hex.DIGITS[c as int / 16], Hex.DIGITS[c as int % 16]] else [c]
  }

  lemma AppendChar(a: string, c: char)
    ensures ConvertStringToPodLabel(a + [c]) == ConvertStringToPodLabel(a) + EscapeOf(c)
  {
    ConvertStringToPodLabelConcat(a, [c]);
    assert [c][1..] == [];
    if IsPunctuation(c) {
      ConvertToHexOfPunctuation(c);
    }
  }

  /** A name without punctuation is its own label body. */
  lemma {:induction false} ConvertStringToPodLabelPlain(s: string)
    requires forall i :: 0 <= i < |s| ==> !IsPunctuation(s[i])
    ensures ConvertStringToPodLabel(s) == s
  {
    if s != [] {
      ConvertStringToPodLabelPlain(s[1..]);
      assert s == [s[0]] + s[1..];
    }
  }

  /** Sample user names and the labels they encode to. */
  lemma UserLabelVectorPlain(u: string)
    requires u == "abc123"
    ensures ConvertGen3usernameToPodLabel(u) == "user-abc123"
  {
    ConvertStringToPodLabelPlain(u);
  }

  lemma UserLabelVectorSymbols(u: string)
    requires u == "a@b"
    ensures ConvertGen3usernameToPodLabel(u) == "user-a-40b"
  {
    var s1, s2, s3 := "a", "a@", "a@b";
    AppendChar([], 'a');
    assert [] + ['a'] == s1;
    AppendChar(s1, '@');
    assert s1 + ['@'] == s2;
    AppendChar(s2, 'b');
    assert s2 + ['b'] == s3;
    assert ConvertStringToPodLabel(s3) == "a-40b";
  }

  /** `str.replace(pat, "", 1)`. */
  function RemoveFirst(s: string, pat: string): string
    requires pat != []
  {
    if |pat| <= |s| && s[..|pat|] == pat then s[|pat|..]
    else if s == [] then []
    else [s[0]] + RemoveFirst(s[1..], pat)
  }

  /** `pat` occurs in `s` at index `i`. */
  predicate OccursAt(s: string, pat: string, i: int) {
    0 <= i && i + |pat| <= |s| && s[i..i + |pat|] == pat
  }

  /** An occurrence in the tail is an occurrence one place further on. */
  lemma OccursAtTail(s: string, pat: string, j: int)
    requires s != []
    ensures OccursAt(s[1..], pat, j) ==> OccursAt(s, pat, j + 1)
    ensures 0 <= j ==> (OccursAt(s, pat, j + 1) ==> OccursAt(s[1..], pat, j))
  {
    if 0 <= j && j + |pat| <= |s| - 1 {
      assert s[1..][j..j + |pat|] == s[j + 1..j + 1 + |pat|];
    }
  }

  /** Without an occurrence at the front, `replace(pat, "", 1)` keeps the
      first character and carries on with the rest. */
  lemma RemoveFirstSkips(s: string, pat: string)
    requires pat != [] && s != [] && !OccursAt(s, pat, 0)
    ensures RemoveFirst(s, pat) == [s[0]] + RemoveFirst(s[1..], pat)
  {
  }

  /** `replace(pat, "", 1)` leaves a string without an occurrence of `pat`
      unchanged. */
  lemma {:induction false} RemoveFirstAbsent(s: string, pat: string)
    requires pat != []
    requires forall i :: !OccursAt(s, pat, i)
    ensures RemoveFirst(s, pat) == s
  {
    assert !OccursAt(s, pat, 0);
    if s != [] {
      forall i ensures !OccursAt(s[1..], pat, i) {
        OccursAtTail(s, pat, i);
      }
      RemoveFirstAbsent(s[1..], pat);
      RemoveFirstSkips(s, pat);
      assert s == [s[0]] + s[1..];
    }
  }

  /** `replace(pat, "", 1)` cuts out the leftmost occurrence of `pat`,
      wherever it stands. */
  lemma {:induction false} RemoveFirstLeftmost(s: string, pat: string, i: nat)
    requires pat != []
    requires OccursAt(s, pat, i)
    requires forall j :: 0 <= j < i ==> !OccursAt(s, pat, j)
    ensures RemoveFirst(s, pat) == s[..i] + s[i + |pat|..]
  {
    if i > 0 {
      assert !OccursAt(s, pat, 0);
      OccursAtTail(s, pat, i - 1);
      forall j | 0 <= j < i - 1 ensures !OccursAt(s[1..], pat, j) {
        OccursAtTail(s, pat, j);
      }
      RemoveFirstLeftmost(s[1..], pat, i - 1);
      RemoveFirstSkips(s, pat);
      assert s[..i] == [s[0]] + s[1..][..i - 1];
      assert s[i + |pat|..] == s[1..][i - 1 + |pat|..];
      assert s[..i] + s[i + |pat|..] == [s[0]] + (s[1..][..i - 1] + s[1..][i - 1 + |pat|..]);
    }
  }

  /** The value of two hex digits, when both are hex digits. */
  function HexPair(x: char, y: char): Option<int> {
    match (Hex.DigitValue(x), Hex.DigitValue(y))
    case (Some(hi), Some(lo)) => Some(hi * 16 + lo)
    case _ => None
  }

  /** `_convert_to_label` on a match `-xy`: `bytearray.fromhex("xy").decode()`,
      or the match itself when that raises. A pair of hex digits gives back
      the character it encodes as long as that is ASCII; any other pair (not
      hex, or a byte that is not UTF-8 on its own) is kept verbatim. */
  function ConvertToLabel(x: char, y: char): (r: string)
    requires IsAsciiAlnum(x) && IsAsciiAlnum(y)
    ensures r == match HexPair(x, y)
                 case Some(b) => if b < 0x80 then [b as char] else ['-', x, y]
                 case None => ['-', x, y]
  {
    Hex.FromHexPair(x, y);
    match Hex.FromHex([x, y])
    case None => ['-', x, y]
    case Some(bs) =>
      Utf8.DecodeSingle(bs[0]);
      assert bs == [bs[0]];
      match Utf8.Decode(bs)
      case None => ['-', x, y]
      case Some(t) => t
  }

  /** `re.sub(r"-[0-9A-Za-z]{2}", _convert_to_label, s)`: scanning from the
      left, every `-` followed by two ASCII letters or digits is one match. */
  function SubHexGroups(s: string): string {
    if |s| >= 3 && s[0] == '-' && IsAsciiAlnum(s[1]) && IsAsciiAlnum(s[2]) then
      ConvertToLabel(s[1], s[2]) + SubHexGroups(s[3..])
    else if s == [] then []
    else [s[0]] + SubHexGroups(s[1..])
  }

  /** `convert_username_label_to_gen3username`: a missing or empty label
      reads as the empty name; otherwise the first `user-` goes and the
      escapes are undone. It never fails. */
  function ConvertUsernameLabelToGen3username(podLabel: Option<string>): (username: string)
    ensures podLabel == None || podLabel == Some([]) ==> username == []
  {
    if podLabel.None? || podLabel.value == [] then []
    else SubHexGroups(RemoveFirst(podLabel.value, USER_PREFIX))
  }

  /** A `-xy` group that does not encode an ASCII character stays in the
      decoded name as it was. */
  lemma MalformedGroupVerbatim(x: char, y: char, rest: string)
    requires IsAsciiAlnum(x) && IsAsciiAlnum(y)
    requires HexPair(x, y).None? || HexPair(x, y).value >= 0x80
    ensures SubHexGroups(['-', x, y] + rest) == ['-', x, y] + SubHexGroups(rest)
  {
    assert (['-', x, y] + rest)[3..] == rest;
  }

  /** The decoder turns the escape of a punctuation character back into
      the character. */
  lemma SubHexGroupsEscape(c: char, rest: string)
    requires IsPunctuation(c)
    ensures SubHexGroups(ConvertToHex(c) + rest) == [c] + SubHexGroups(rest)
  {
    ConvertToHexOfPunctuation(c);
    var e := ConvertToHex(c);
    Hex.DigitValueOfDigit(c as int / 16);
    Hex.DigitValueOfDigit(c as int % 16);
    assert HexPair(e[1], e[2]) == Some(c as int);
    assert (e + rest)[..3] == e;
    assert (e + rest)[3..] == rest;
  }

  /** The decoder passes over a character that is not `-`. */
  lemma SubHexGroupsPlain(c: char, rest: string)
    requires c != '-'
    ensures SubHexGroups([c] + rest) == [c] + SubHexGroups(rest)
  {
    assert ([c] + rest)[1..] == rest;
  }

  /** The decoder undoes the escapes: `re.sub` finds exactly the `-xy` groups
      the encoder wrote, because every `-` in an encoded body starts one. */
  lemma {:induction false} SubHexGroupsInvertsEscapes(s: string)
    ensures SubHexGroups(ConvertStringToPodLabel(s)) == s
  {
    if s != [] {
      var rest := ConvertStringToPodLabel(s[1..]);
      if IsPunctuation(s[0]) {
        SubHexGroupsEscape(s[0], rest);
      } else {
        SubHexGroupsPlain(s[0], rest);
      }
      SubHexGroupsInvertsEscapes(s[1..]);
      assert s == [s[0]] + s[1..];
    }
  }

  /** Round trip: every user name is read back from its label. */
  lemma PodLabelRoundTrip(username: string)
    ensures ConvertUsernameLabelToGen3username(Some(ConvertGen3usernameToPodLabel(username))) == username
  {
    var body := ConvertStringToPodLabel(username);
    assert (USER_PREFIX + body)[..|USER_PREFIX|] == USER_PREFIX;
    assert (USER_PREFIX + body)[|USER_PREFIX|..] == body;
    SubHexGroupsInvertsEscapes(username);
  }

  /** `convert_gen3teamproject_to_pod_label`: the hex of the name's UTF-8
      bytes, which uses lower-case hex digits only and is empty exactly when
      the name is. */
  function ConvertGen3teamprojectToPodLabel(teamProject: string): (encoded: string)
    ensures forall i :: 0 <= i < |encoded| ==> Hex.IsLowerHexDigit(encoded[i])
    ensures encoded == [] <==> teamProject == []
  {
    Utf8.EncodeEmpty(teamProject);
    Hex.ToHex(Utf8.Encode(teamProject))
  }

  /** What `bytes.fromhex(...).decode("utf-8")` raises. */
  datatype DecodeError = InvalidHex | InvalidUtf8

  /** `convert_pod_label_to_gen3teamproject`: None for a missing or empty
      label, else the decoded name; the Python raises on a label that is
      not hex or not UTF-8. */
  function ConvertPodLabelToGen3teamproject(podLabel: Option<string>): (r: Result<Option<string>, DecodeError>)
    ensures podLabel == None || podLabel == Some([]) ==> r == Success(None)
  {
    if podLabel.None? || podLabel.value == [] then Success(None)
    else
      match Hex.FromHex(podLabel.value)
      case None => Failure(InvalidHex)
      case Some(bytes) =>
        match Utf8.Decode(bytes)
        case None => Failure(InvalidUtf8)
        case Some(teamProject) => Success(Some(teamProject))
  }

  /** Round trip for team projects: a non-empty name is read back from its
      label, while the empty name encodes to the empty label, which reads
      back as None rather than as the empty name. */
  lemma TeamProjectRoundTrip(teamProject: string)
    ensures ConvertPodLabelToGen3teamproject(Some(ConvertGen3teamprojectToPodLabel(teamProject)))
            == Success(if teamProject == [] then None else Some(teamProject))
  {
    Hex.FromHexToHex(Utf8.Encode(teamProject));
    Utf8.DecodeEncode(teamProject);
  }
}

/** The second copy of the user name encoder, kept in the engine's helper
    module `test.py`. It is defined on its own here, as in that file, and
    shown to agree with the engine helper's encoder on every input. */
module HelpersTest {
  import opened Wrappers
  import Utf8
  import Hex
  import LabelCodec

  /** `_convert_to_hex` on a one-character match: `-` and the lower-case hex
      of the character's UTF-8 bytes; for punctuation, which is ASCII, that
      is exactly two digits naming the character's code. */
  function ConvertToHex(c: char): (escaped: string)
    ensures |escaped| == 1 + 2 * |Utf8.Encode([c])| && escaped[0] == '-'
    ensures LabelCodec.IsPunctuation(c) ==>
      escaped == ['-', Hex.DIGITS[c as int / 16], Hex.DIGITS[c as int % 16]]
  {
    if LabelCodec.IsPunctuation(c) then
      Utf8.EncodeAscii(c);
      "-" + Hex.ToHex(Utf8.Encode([c]))
    else
      "-" + Hex.ToHex(Utf8.Encode([c]))
  }

  /** The `re.sub` over the escaped punctuation class with `_convert_to_hex`. */
  function SubPunctuation(s: string): (r: string)
    ensures |r| == |s| + 2 * LabelCodec.PunctuationCount(s)
    ensures forall i :: 0 <= i < |r| && LabelCodec.IsPunctuation(r[i]) ==> r[i] == '-'
  {
    if s == [] then []
    else if LabelCodec.IsPunctuation(s[0]) then ConvertToHex(s[0]) + SubPunctuation(s[1..])
    else [s[0]] + SubPunctuation(s[1..])
  }

  /** `convert_gen3username_to_label`: `user-` and the escaped name. The
      label is five characters longer than the name plus two per escaped
      character, and after the prefix holds no punctuation but `-`. */
  function ConvertGen3usernameToLabel(username: string): (encoded: string)
    ensures |encoded| == 5 + |username| + 2 * LabelCodec.PunctuationCount(username)
    ensures encoded[..5] == "user-"
    ensures forall i :: 5 <= i < |encoded| && LabelCodec.IsPunctuation(encoded[i]) ==> encoded[i] == '-'
  {
    "user-" + SubPunctuation(username)
  }

  /** Every character that is not punctuation is kept as it is. */
  lemma {:induction false} SubPunctuationKeepsPlain(s: string)
    requires forall i :: 0 <= i < |s| ==> !LabelCodec.IsPunctuation(s[i])
    ensures SubPunctuation(s) == s
  {
    if s != [] {
      SubPunctuationKeepsPlain(s[1..]);
      assert s == [s[0]] + s[1..];
    }
  }

  /** The two copies of the encoder agree on every input. */
  lemma {:induction false} SubPunctuationAgrees(s: string)
    ensures SubPunctuation(s) == LabelCodec.ConvertStringToPodLabel(s)
  {
    if s != [] {
      SubPunctuationAgrees(s[1..]);
      if LabelCodec.IsPunctuation(s[0]) {
        LabelCodec.ConvertToHexOfPunctuation(s[0]);
        assert ConvertToHex(s[0]) == LabelCodec.ConvertToHex(s[0]);
      }
    }
  }

  lemma ConvertGen3usernameToLabelAgrees(username: string)
    ensures ConvertGen3usernameToLabel(username) == LabelCodec.ConvertGen3usernameToPodLabel(username)
  {
    SubPunctuationAgrees(username);
  }

  /** The engine's decoder reads the name back from this copy's labels too. */
  lemma LabelRoundTrip(username: string)
    ensures LabelCodec.ConvertUsernameLabelToGen3username(Some(ConvertGen3usernameToLabel(username))) == username
  {
    ConvertGen3usernameToLabelAgrees(username);
    LabelCodec.PodLabelRoundTrip(username);
  }
}

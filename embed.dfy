/**
 * The rules of the embed builder (`EmbedBuilderModal`, `EmbedFieldModal` and
 * `EmbedBuilderView`, main.py:383-420): the colour text accepted by the core
 * modal, the yes-words of the field modal, and the draft embed those modals
 * edit in place, which holds at most 25 fields.
 */
module EmbedBuilder {
  import opened Wrappers
  import opened Text

  /**
   * `re.match(r'^#(?:[0-9a-fA-F]{3}){1,2}$', s)`: '#', then three or six hex
   * digits; `$` also matches just before one final newline.
   */
  predicate ColorMatches(s: string) {
    var body := if |s| > 0 && s[|s| - 1] == '\n' then s[..|s| - 1] else s;
    (|body| == 4 || |body| == 7) && body[0] == '#' && AllHexDigits(body[1..])
  }

  /**
   * The colour the core modal sets: `int(s[1:], 16)` for a matching text (the
   * trailing newline is whitespace to `int`), else `None`, meaning
   * `discord.Color.default()`.
   */
  function ParseColor(s: string): Option<nat> {
    if s != "" && ColorMatches(s) then
      var digits := s[1..if s[|s| - 1] == '\n' then |s| - 1 else |s|];
      Some(HexValue(digits))
    else None
  }

  /**
   * The colour text is accepted exactly when it is '#' and three or six hex
   * digits, optionally followed by a newline, and its value is those digits
   * read in base 16; a 3-digit colour is not expanded to six.
   */
  lemma ParseColorSpec(s: string)
    ensures ParseColor(s).Some? <==>
              exists h :: (|h| == 3 || |h| == 6) && AllHexDigits(h) && (s == "#" + h || s == "#" + h + "\n")
    ensures forall h :: (|h| == 3 || |h| == 6) && AllHexDigits(h) && (s == "#" + h || s == "#" + h + "\n") ==>
              ParseColor(s) == Some(HexValue(h))
  {
    if ParseColor(s).Some? {
      if s[|s| - 1] == '\n' {
        var body := s[..|s| - 1];
        var h := s[1..|s| - 1];
        assert body[0] == s[0] == '#' && body[1..] == h;
        assert s == "#" + h + "\n";
      } else {
        var h := s[1..];
        assert s == "#" + h;
      }
    }
    forall h | (|h| == 3 || |h| == 6) && AllHexDigits(h) && (s == "#" + h || s == "#" + h + "\n")
      ensures ParseColor(s) == Some(HexValue(h))
    {
      if s == "#" + h {
        ParseColorPlain(h);
      } else {
        ParseColorNewline(h);
      }
    }
  }

  /** '#' and three or six hex digits parse to those digits' value. */
  lemma ParseColorPlain(h: string)
    requires (|h| == 3 || |h| == 6) && AllHexDigits(h)
    ensures ParseColor("#" + h) == Some(HexValue(h))
  {
    var s := "#" + h;
    assert IsHexDigit(h[|h| - 1]) && s[|s| - 1] == h[|h| - 1];
    assert s[|s| - 1] != '\n';
    assert s[1..|s|] == h;
    assert ColorMatches(s) && s != "";
    assert ParseColor(s) == Some(HexValue(s[1..|s|]));
  }

  /** The same text followed by one newline parses to the same value. */
  lemma ParseColorNewline(h: string)
    requires (|h| == 3 || |h| == 6) && AllHexDigits(h)
    ensures ParseColor("#" + h + "\n") == Some(HexValue(h))
  {
    var s := "#" + h + "\n";
    assert s[..|s| - 1] == "#" + h;
    assert s[1..|s| - 1] == h;
  }

  /** An accepted colour is a 24-bit RGB value. */
  lemma ParseColorBound(s: string)
    ensures ParseColor(s).Some? ==> ParseColor(s).value < 0x1000000
  {
    if ParseColor(s).Some? {
      var digits := s[1..if s[|s| - 1] == '\n' then |s| - 1 else |s|];
      HexValueBound(digits);
      assert Pow16(3) == 0x1000 && Pow16(6) == 0x1000000;
    }
  }

  /** Every RGB value written as '#' and six hex digits comes back unchanged. */
  lemma ColorRoundTrip(v: nat)
    requires v < 0x1000000
    ensures ParseColor("#" + HexPadded(v, 6)) == Some(v)
  {
    assert Pow16(6) == 0x1000000;
    HexPaddedRoundTrip(v, 6);
    ParseColorSpec("#" + HexPadded(v, 6));
  }

  /** "#fff" is 0xfff, a dark blue, not the white 0xffffff; "#ff00" and "ff0000" are refused. */
  lemma ShortColorNotExpanded()
    ensures ParseColor("#fff") == Some(0xfff)
    ensures ParseColor("#ff00") == None
    ensures ParseColor("ff0000") == None
  {
    assert "#fff"[1..4] == "fff";
    assert HexValue("fff") == 0xfff by {
      assert "fff"[..2] == "ff" && "ff"[..1] == "f" && "f"[..0] == [];
      assert HexValue("f") == 15;
      assert HexValue("ff") == 255;
    }
  }

  /** The words that make a field inline, compared after `str.lower()`. */
  const YesWords: seq<string> := ["tak", "yes", "true", "t"]

  predicate Inline(answer: string) {
    Lower(answer) in YesWords
  }

  /**
   * Upper and lower case are the same answer ("TAK", "Yes" and "T" are yes),
   * anything else is no, including the empty default; the answer box takes
   * at most three characters, so "true" cannot actually be typed.
   */
  lemma InlineAnswers()
    ensures Inline("Tak") && Inline("YES") && Inline("t") && Inline("taK")
    ensures !Inline("") && !Inline("Nie") && !Inline("no") && !Inline("ta")
    ensures forall a :: |a| <= 3 && Inline(a) ==> Lower(a) in ["tak", "yes", "t"]
  {
    assert Lower("Tak") == "tak";
    assert Lower("YES") == "yes";
    assert Lower("t") == "t";
    assert Lower("taK") == "tak";
    assert Lower("Nie") == "nie";
    assert Lower("no") == "no";
    assert Lower("ta") == "ta";
  }

  /** Lower-casing the answer first changes nothing. */
  lemma InlineIgnoresCase(answer: string)
    ensures Inline(Lower(answer)) <==> Inline(answer)
  {
    assert Lower(Lower(answer)) == Lower(answer);
  }

  const MaxFields: nat := 25

  datatype Field = Field(name: string, value: string, inline: bool)

  /** The embed of an `EmbedBuilderView`, edited in place by the two modals. */
  class EmbedDraft {
    var title: string
    var description: string
    /** `None` until the core modal has been submitted: a fresh `discord.Embed` has no colour. */
    var color: Option<nat>
    var fields: seq<Field>

    ghost predicate Valid()
      reads this
    {
      |fields| <= MaxFields
    }

    constructor ()
      ensures Valid()
      ensures title == "Nowy Embed" && description == "Kliknij przyciski, by go edytować."
      ensures color == None && fields == []
    {
      title := "Nowy Embed";
      description := "Kliknij przyciski, by go edytować.";
      color := None;
      fields := [];
    }

    /** `EmbedBuilderModal.on_submit`: sets title and description, and the colour or the default 0. */
    method SubmitCore(newTitle: string, newDescription: string, colorText: string)
      requires Valid()
      modifies this
      ensures Valid()
      ensures title == newTitle && description == newDescription && fields == old(fields)
      ensures color == Some(ParseColor(colorText).GetOr(0))
    {
      title := newTitle;
      description := newDescription;
      if colorText != "" && ColorMatches(colorText) {
        color := Some(HexValue(colorText[1..if colorText[|colorText| - 1] == '\n' then |colorText| - 1 else |colorText|]));
      } else {
        color := Some(0);
      }
    }

    /** `EmbedFieldModal.on_submit`: refused once 25 fields exist, else appends one field. */
    method SubmitField(name: string, value: string, inlineAnswer: string) returns (added: bool)
      requires Valid()
      modifies this
      ensures Valid()
      ensures added <==> |old(fields)| < MaxFields
      ensures fields == if added then old(fields) + [Field(name, value, Inline(inlineAnswer))] else old(fields)
      ensures title == old(title) && description == old(description) && color == old(color)
    {
      if |fields| >= MaxFields {
        return false;
      }
      var inline := Lower(inlineAnswer) in YesWords;
      fields := fields + [Field(name, value, inline)];
      added := true;
    }
  }
}

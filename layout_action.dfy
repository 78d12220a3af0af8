/**
 * The snapping actions a hotkey can trigger, their kebab-case names, and
 * the JSON payload they travel in between the front end and the back end.
 */
module LayoutActions {
  import opened Wrappers

  /** Rust's `u32`. */
  newtype u32 = x: int | 0 <= x < 0x1_0000_0000

  datatype LayoutAction =
    | LeftHalf
    | RightHalf
    | CenterHalf
    | TopHalf
    | BottomHalf
    | TopLeft
    | TopRight
    | BottomLeft
    | BottomRight
    | FirstThird
    | CenterThird
    | LastThird
    | FirstTwoThirds
    | LastTwoThirds
    | Maximize
    | AlmostMaximize
    | MaximizeHeight
    | Smaller
    | Larger
    | Center
    | CenterProminently
    | Restore
    | NextDisplay
    | PreviousDisplay
    | MoveLeft
    | MoveRight
    | MoveUp
    | MoveDown
    | FirstFourth
    | SecondFourth
    | ThirdFourth
    | LastFourth
    | FirstThreeFourths
    | LastThreeFourths
    | TopLeftSixth
    | TopCenterSixth
    | TopRightSixth
    | BottomLeftSixth
    | BottomCenterSixth
    | BottomRightSixth
    | TopLeftThird
    | TopRightThird
    | BottomLeftThird
    | BottomRightThird
    | ApplyZone(zone: u32)
    | ActivateLayout(layoutId: string)

  /** The variants without data, which serialise as a bare name. */
  predicate IsSimple(a: LayoutAction) {
    !a.ApplyZone? && !a.ActivateLayout?
  }

  /** The serialised name of an action: its variant name in kebab-case. */
  function Name(a: LayoutAction): (r: string)
    ensures |r| > 0
  {
    match a
    case LeftHalf => "left-half"
    case RightHalf => "right-half"
    case CenterHalf => "center-half"
    case TopHalf => "top-half"
    case BottomHalf => "bottom-half"
    case TopLeft => "top-left"
    case TopRight => "top-right"
    case BottomLeft => "bottom-left"
    case BottomRight => "bottom-right"
    case FirstThird => "first-third"
    case CenterThird => "center-third"
    case LastThird => "last-third"
    case FirstTwoThirds => "first-two-thirds"
    case LastTwoThirds => "last-two-thirds"
    case Maximize => "maximize"
    case AlmostMaximize => "almost-maximize"
    case MaximizeHeight => "maximize-height"
    case Smaller => "smaller"
    case Larger => "larger"
    case Center => "center"
    case CenterProminently => "center-prominently"
    case Restore => "restore"
    case NextDisplay => "next-display"
    case PreviousDisplay => "previous-display"
    case MoveLeft => "move-left"
    case MoveRight => "move-right"
    case MoveUp => "move-up"
    case MoveDown => "move-down"
    case FirstFourth => "first-fourth"
    case SecondFourth => "second-fourth"
    case ThirdFourth => "third-fourth"
    case LastFourth => "last-fourth"
    case FirstThreeFourths => "first-three-fourths"
    case LastThreeFourths => "last-three-fourths"
    case TopLeftSixth => "top-left-sixth"
    case TopCenterSixth => "top-center-sixth"
    case TopRightSixth => "top-right-sixth"
    case BottomLeftSixth => "bottom-left-sixth"
    case BottomCenterSixth => "bottom-center-sixth"
    case BottomRightSixth => "bottom-right-sixth"
    case TopLeftThird => "top-left-third"
    case TopRightThird => "top-right-third"
    case BottomLeftThird => "bottom-left-third"
    case BottomRightThird => "bottom-right-third"
    case ApplyZone(_) => "apply-zone"
    case ActivateLayout(_) => "activate-layout"
  }

  /**
   * The one simple variant a name could be, told by its length and at most
   * two of its characters; `FromName` then checks the whole name.
   */
  function Candidate(s: string): Option<LayoutAction>
  {
    match |s|
    case 6 => if s[0] == 'l' then Some(Larger) else if s[0] == 'c' then Some(Center) else None
    case 7 => if s[0] == 's' then Some(Smaller) else if s[0] == 'r' then Some(Restore) else if s[0] == 'm' then Some(MoveUp) else None
    case 8 => if s[4] == 'h' then Some(TopHalf) else if s[4] == 'l' then Some(TopLeft) else if s[4] == 'm' then Some(Maximize) else None
    case 9 => if s[5] == 'h' then Some(LeftHalf) else if s[5] == 'i' then Some(TopRight) else if s[5] == 'l' then Some(MoveLeft) else if s[5] == 'd' then Some(MoveDown) else None
    case 10 => if s[0] == 'r' then Some(RightHalf) else if s[0] == 'l' then Some(LastThird) else if s[0] == 'm' then Some(MoveRight) else None
    case 11 => if s[0] == 'c' then Some(CenterHalf) else if s[0] == 'b' then if s[7] == 'h' then Some(BottomHalf) else if s[7] == 'l' then Some(BottomLeft) else None else if s[0] == 'f' then Some(FirstThird) else if s[0] == 'l' then Some(LastFourth) else None
    case 12 => if s[0] == 'b' then Some(BottomRight) else if s[0] == 'c' then Some(CenterThird) else if s[0] == 'n' then Some(NextDisplay) else if s[0] == 'f' then Some(FirstFourth) else if s[0] == 't' then Some(ThirdFourth) else None
    case 13 => Some(SecondFourth)
    case 14 => if s[9] == 's' then Some(TopLeftSixth) else if s[9] == 't' then Some(TopLeftThird) else None
    case 15 => if s[10] == 'h' then Some(LastTwoThirds) else if s[10] == 'i' then Some(AlmostMaximize) else if s[10] == 'e' then Some(MaximizeHeight) else if s[10] == 's' then Some(TopRightSixth) else if s[10] == 't' then Some(TopRightThird) else None
    case 16 => if s[0] == 'f' then Some(FirstTwoThirds) else if s[0] == 'p' then Some(PreviousDisplay) else if s[0] == 't' then Some(TopCenterSixth) else None
    case 17 => if s[12] == 's' then Some(BottomLeftSixth) else if s[12] == 't' then Some(BottomLeftThird) else None
    case 18 => if s[13] == 'e' then Some(CenterProminently) else if s[13] == 'u' then Some(LastThreeFourths) else if s[13] == 's' then Some(BottomRightSixth) else if s[13] == 't' then Some(BottomRightThird) else None
    case 19 => if s[0] == 'f' then Some(FirstThreeFourths) else if s[0] == 'b' then Some(BottomCenterSixth) else None
    case _ => None
  }

  /** Deserialising a bare name: the simple variant with exactly that name, if any. */
  function FromName(s: string): (r: Option<LayoutAction>)
    ensures r.Some? ==> IsSimple(r.value) && Name(r.value) == s
  {
    match Candidate(s)
    case Some(a) => if IsSimple(a) && Name(a) == s then Some(a) else None
    case None => None
  }

  /** Every simple variant's name reads back as that variant, so the names are distinct. */
  lemma NameRoundTrip(a: LayoutAction)
    requires IsSimple(a)
    ensures FromName(Name(a)) == Some(a)
  {
    NamesReadBack(Quarter(a), a);
  }

  /** Which quarter of the simple variants, in declaration order, an action is in. */
  function Quarter(a: LayoutAction): nat {
    match a
    case LeftHalf => 0
    case RightHalf => 0
    case CenterHalf => 0
    case TopHalf => 0
    case BottomHalf => 0
    case TopLeft => 0
    case TopRight => 0
    case BottomLeft => 0
    case BottomRight => 0
    case FirstThird => 0
    case CenterThird => 0
    case LastThird => 1
    case FirstTwoThirds => 1
    case LastTwoThirds => 1
    case Maximize => 1
    case AlmostMaximize => 1
    case MaximizeHeight => 1
    case Smaller => 1
    case Larger => 1
    case Center => 1
    case CenterProminently => 1
    case Restore => 1
    case NextDisplay => 2
    case PreviousDisplay => 2
    case MoveLeft => 2
    case MoveRight => 2
    case MoveUp => 2
    case MoveDown => 2
    case FirstFourth => 2
    case SecondFourth => 2
    case ThirdFourth => 2
    case LastFourth => 2
    case FirstThreeFourths => 2
    case LastThreeFourths => 3
    case TopLeftSixth => 3
    case TopCenterSixth => 3
    case TopRightSixth => 3
    case BottomLeftSixth => 3
    case BottomCenterSixth => 3
    case BottomRightSixth => 3
    case TopLeftThird => 3
    case TopRightThird => 3
    case BottomLeftThird => 3
    case BottomRightThird => 3
    case _ => 4
  }

  /** The names of one quarter of the simple variants read back, one variant at a time. */
  lemma NamesReadBack(q: nat, a: LayoutAction)
    requires Quarter(a) == q && q < 4
    ensures Candidate(Name(a)) == Some(a)
  {
    if q == 0 {
      QuarterReadsBack0(a);
    } else if q == 1 {
      QuarterReadsBack1(a);
    } else if q == 2 {
      QuarterReadsBack2(a);
    } else {
      QuarterReadsBack3(a);
    }
  }

  lemma QuarterReadsBack0(a: LayoutAction)
    requires Quarter(a) == 0
    ensures Candidate(Name(a)) == Some(a)
  {
    match a
    case LeftHalf => assert Candidate(Name(LeftHalf)) == Some(LeftHalf);
    case RightHalf => assert Candidate(Name(RightHalf)) == Some(RightHalf);
    case CenterHalf => assert Candidate(Name(CenterHalf)) == Some(CenterHalf);
    case TopHalf => assert Candidate(Name(TopHalf)) == Some(TopHalf);
    case BottomHalf => assert Candidate(Name(BottomHalf)) == Some(BottomHalf);
    case TopLeft => assert Candidate(Name(TopLeft)) == Some(TopLeft);
    case TopRight => assert Candidate(Name(TopRight)) == Some(TopRight);
    case BottomLeft => assert Candidate(Name(BottomLeft)) == Some(BottomLeft);
    case BottomRight => assert Candidate(Name(BottomRight)) == Some(BottomRight);
    case FirstThird => assert Candidate(Name(FirstThird)) == Some(FirstThird);
    case CenterThird => assert Candidate(Name(CenterThird)) == Some(CenterThird);
    case _ =>
  }

  lemma QuarterReadsBack1(a: LayoutAction)
    requires Quarter(a) == 1
    ensures Candidate(Name(a)) == Some(a)
  {
    match a
    case LastThird => assert Candidate(Name(LastThird)) == Some(LastThird);
    case FirstTwoThirds => assert Candidate(Name(FirstTwoThirds)) == Some(FirstTwoThirds);
    case LastTwoThirds => assert Candidate(Name(LastTwoThirds)) == Some(LastTwoThirds);
    case Maximize => assert Candidate(Name(Maximize)) == Some(Maximize);
    case AlmostMaximize => assert Candidate(Name(AlmostMaximize)) == Some(AlmostMaximize);
    case MaximizeHeight => assert Candidate(Name(MaximizeHeight)) == Some(MaximizeHeight);
    case Smaller => assert Candidate(Name(Smaller)) == Some(Smaller);
    case Larger => assert Candidate(Name(Larger)) == Some(Larger);
    case Center => assert Candidate(Name(Center)) == Some(Center);
    case CenterProminently => assert Candidate(Name(CenterProminently)) == Some(CenterProminently);
    case Restore => assert Candidate(Name(Restore)) == Some(Restore);
    case _ =>
  }

  lemma QuarterReadsBack2(a: LayoutAction)
    requires Quarter(a) == 2
    ensures Candidate(Name(a)) == Some(a)
  {
    match a
    case NextDisplay => assert Candidate(Name(NextDisplay)) == Some(NextDisplay);
    case PreviousDisplay => assert Candidate(Name(PreviousDisplay)) == Some(PreviousDisplay);
    case MoveLeft => assert Candidate(Name(MoveLeft)) == Some(MoveLeft);
    case MoveRight => assert Candidate(Name(MoveRight)) == Some(MoveRight);
    case MoveUp => assert Candidate(Name(MoveUp)) == Some(MoveUp);
    case MoveDown => assert Candidate(Name(MoveDown)) == Some(MoveDown);
    case FirstFourth => assert Candidate(Name(FirstFourth)) == Some(FirstFourth);
    case SecondFourth => assert Candidate(Name(SecondFourth)) == Some(SecondFourth);
    case ThirdFourth => assert Candidate(Name(ThirdFourth)) == Some(ThirdFourth);
    case LastFourth => assert Candidate(Name(LastFourth)) == Some(LastFourth);
    case FirstThreeFourths => assert Candidate(Name(FirstThreeFourths)) == Some(FirstThreeFourths);
    case _ =>
  }

  lemma QuarterReadsBack3(a: LayoutAction)
    requires Quarter(a) == 3
    ensures Candidate(Name(a)) == Some(a)
  {
    match a
    case LastThreeFourths => assert Candidate(Name(LastThreeFourths)) == Some(LastThreeFourths);
    case TopLeftSixth => assert Candidate(Name(TopLeftSixth)) == Some(TopLeftSixth);
    case TopCenterSixth => assert Candidate(Name(TopCenterSixth)) == Some(TopCenterSixth);
    case TopRightSixth => assert Candidate(Name(TopRightSixth)) == Some(TopRightSixth);
    case BottomLeftSixth => assert Candidate(Name(BottomLeftSixth)) == Some(BottomLeftSixth);
    case BottomCenterSixth => assert Candidate(Name(BottomCenterSixth)) == Some(BottomCenterSixth);
    case BottomRightSixth => assert Candidate(Name(BottomRightSixth)) == Some(BottomRightSixth);
    case TopLeftThird => assert Candidate(Name(TopLeftThird)) == Some(TopLeftThird);
    case TopRightThird => assert Candidate(Name(TopRightThird)) == Some(TopRightThird);
    case BottomLeftThird => assert Candidate(Name(BottomLeftThird)) == Some(BottomLeftThird);
    case BottomRightThird => assert Candidate(Name(BottomRightThird)) == Some(BottomRightThird);
    case _ =>
  }

  /** No simple variant is named like one of the two data variants. */
  lemma SimpleNamesAreNotDataNames(a: LayoutAction)
    requires IsSimple(a)
    ensures Name(a) != "apply-zone" && Name(a) != "activate-layout"
  {
    NameRoundTrip(a);
    assert FromName("apply-zone") == None && FromName("activate-layout") == None;
  }

  /** The wire form: the action's name plus the data of the two data variants. */
  datatype ActionPayload = ActionPayload(action: string, zoneNumber: Option<u32>, layoutId: Option<string>)

  /** A character a JSON string may hold as it is: not a quote, a backslash or a control character. */
  predicate PlainChar(c: char) {
    c != '"' && c != '\\' && c >= ' '
  }

  /** A string every character of which stands for itself inside a JSON string. */
  predicate Plain(s: string) {
    forall i :: 0 <= i < |s| ==> PlainChar(s[i])
  }

  /** The value of a hexadecimal digit of either case. */
  function HexValue(c: char): (r: Option<int>)
    ensures r.Some? ==> 0 <= r.value < 16
  {
    if '0' <= c <= '9' then Some(c as int - '0' as int)
    else if 'a' <= c <= 'f' then Some(c as int - 'a' as int + 10)
    else if 'A' <= c <= 'F' then Some(c as int - 'A' as int + 10)
    else None
  }

  /** The code unit written by the four hexadecimal digits of a `\\u` escape. */
  function Hex4(s: string): (r: Option<int>)
    requires |s| == 4
    ensures r.Some? ==> 0 <= r.value < 0x1_0000
  {
    match (HexValue(s[0]), HexValue(s[1]), HexValue(s[2]), HexValue(s[3]))
    case (Some(a), Some(b), Some(c), Some(d)) => Some(((a * 16 + b) * 16 + c) * 16 + d)
    case _ => None
  }

  /** `c` in front of a decoded remainder, or the remainder's failure. */
  function Prepend(c: char, rest: Option<string>): (r: Option<string>)
    ensures r.Some? <==> rest.Some?
    ensures r.Some? ==> r.value == [c] + rest.value
  {
    match rest
    case None => None
    case Some(t) => Some([c] + t)
  }

  /** The character a simple escape letter stands for (`\\n` is a newline, and so on). */
  function SimpleEscape(c: char): Option<char> {
    match c
    case '"' => Some('"')
    case '\\' => Some('\\')
    case '/' => Some('/')
    case 'b' => Some('\U{0008}')
    case 'f' => Some('\U{000C}')
    case 'n' => Some('\n')
    case 'r' => Some('\r')
    case 't' => Some('\t')
    case _ => None
  }

  /**
   * The escape at the head of `s`, which starts with a backslash: the
   * character it stands for and how many characters it spans. A `u` escape
   * is four hexadecimal digits naming a UTF-16 code unit; a high surrogate
   * must be followed by a `u` escape of a low surrogate, and the pair names
   * one character. A lone surrogate, a short or bad hexadecimal escape and
   * an unknown escape letter are errors.
   */
  function EscapeAt(s: string): (r: Option<(char, nat)>)
    requires |s| > 0 && s[0] == '\\'
    ensures r.Some? ==> 2 <= r.value.1 <= |s|
  {
    if |s| < 2 then None
    else if s[1] != 'u' then
      match SimpleEscape(s[1])
      case None => None
      case Some(c) => Some((c, 2))
    else if |s| < 6 || Hex4(s[2..6]).None? then None
    else
      var u := Hex4(s[2..6]).value;
      if 0xD800 <= u < 0xDC00 then
        if |s| < 12 || s[6] != '\\' || s[7] != 'u' || Hex4(s[8..12]).None? then None
        else
          var v := Hex4(s[8..12]).value;
          if 0xDC00 <= v < 0xE000 then Some(((0x1_0000 + (u - 0xD800) * 0x400 + (v - 0xDC00)) as char, 12))
          else None
      else if 0xDC00 <= u < 0xE000 then None
      else Some((u as char, 6))
  }

  /**
   * The text between the quotes of a JSON string, decoded as
   * `serde_json::from_str` reads it: each escape is replaced by what it
   * stands for. An unescaped quote (which would end the string early), a
   * control character or a bad escape is a parse error.
   */
  function JsonStringBody(s: string): (r: Option<string>)
    ensures r.Some? ==> |r.value| <= |s|
    decreases |s|
  {
    if s == [] then Some([])
    else if s[0] != '\\' then
      if PlainChar(s[0]) then Prepend(s[0], JsonStringBody(s[1..])) else None
    else
      match EscapeAt(s)
      case None => None
      case Some((c, k)) => Prepend(c, JsonStringBody(s[k..]))
  }

  /** A plain string decodes to itself. */
  lemma {:induction false} PlainDecodesToItself(s: string)
    requires Plain(s)
    ensures JsonStringBody(s) == Some(s)
  {
    if s != [] {
      assert Plain(s[1..]) by {
        forall i | 0 <= i < |s[1..]| ensures PlainChar(s[1..][i]) {
          assert s[1..][i] == s[i + 1];
        }
      }
      PlainDecodesToItself(s[1..]);
      assert s == [s[0]] + s[1..];
    }
  }

  /** Every action's name is plain: kebab-case letters and hyphens. */
  lemma NamesArePlain(a: LayoutAction)
    ensures Plain(Name(a))
  {
    NamesArePlain0();
    NamesArePlain1();
    NamesArePlain2();
    NamesArePlain3();
    NamesArePlain4();
    NamesArePlain5();
    NamesArePlain6();
    NamesArePlain7();
    NamesArePlain8();
    NamesArePlain9();
  }

  /**
   * The names, a few at a time, are plain: each is checked character by
   * character, which is why they are split into small groups.
   */
  lemma NamesArePlain0()
    ensures Plain("left-half") && Plain("right-half") && Plain("center-half") && Plain("top-half") && Plain("bottom-half")
  {
  }

  lemma NamesArePlain1()
    ensures Plain("top-left") && Plain("top-right") && Plain("bottom-left") && Plain("bottom-right") && Plain("first-third")
  {
  }

  lemma NamesArePlain2()
    ensures Plain("center-third") && Plain("last-third") && Plain("first-two-thirds") && Plain("last-two-thirds") && Plain("maximize")
  {
  }

  lemma NamesArePlain3()
    ensures Plain("almost-maximize") && Plain("maximize-height") && Plain("smaller") && Plain("larger") && Plain("center")
  {
  }

  lemma NamesArePlain4()
    ensures Plain("center-prominently") && Plain("restore") && Plain("next-display") && Plain("previous-display") && Plain("move-left")
  {
  }

  lemma NamesArePlain5()
    ensures Plain("move-right") && Plain("move-up") && Plain("move-down") && Plain("first-fourth") && Plain("second-fourth")
  {
  }

  lemma NamesArePlain6()
    ensures Plain("third-fourth") && Plain("last-fourth") && Plain("first-three-fourths") && Plain("last-three-fourths") && Plain("top-left-sixth")
  {
  }

  lemma NamesArePlain7()
    ensures Plain("top-center-sixth") && Plain("top-right-sixth") && Plain("bottom-left-sixth") && Plain("bottom-center-sixth") && Plain("bottom-right-sixth")
  {
  }

  lemma NamesArePlain8()
    ensures Plain("top-left-third") && Plain("top-right-third") && Plain("bottom-left-third") && Plain("bottom-right-third") && Plain("apply-zone")
  {
  }

  lemma NamesArePlain9()
    ensures Plain("activate-layout")
  {
  }

  /**
   * Reading a payload (`From<ActionPayload>`). "apply-zone" and
   * "activate-layout" are matched on the text as it is; any other text is
   * put between quotes and parsed as JSON, so its escapes are decoded
   * before the name is looked up. It panics on "apply-zone" without a zone
   * number, on "activate-layout" without a layout id, and on a text that
   * does not parse or names no variant; those panics are the `Err` results.
   */
  function ToAction(p: ActionPayload): (r: Result<LayoutAction, string>)
    ensures p.action == "apply-zone" ==>
      (p.zoneNumber.Some? ==> r == Ok(ApplyZone(p.zoneNumber.value))) && (p.zoneNumber.None? ==> r.Err?)
    ensures p.action == "activate-layout" ==>
      (p.layoutId.Some? ==> r == Ok(ActivateLayout(p.layoutId.value))) && (p.layoutId.None? ==> r.Err?)
    ensures p.action != "apply-zone" && p.action != "activate-layout" ==>
      (r.Ok? <==> JsonStringBody(p.action).Some? && FromName(JsonStringBody(p.action).value).Some?) &&
      (r.Ok? ==> IsSimple(r.value) && Some(Name(r.value)) == JsonStringBody(p.action))
  {
    if p.action == "apply-zone" then
      if p.zoneNumber.Some? then Ok(ApplyZone(p.zoneNumber.value))
      else Err("apply-zone action requires zone_number")
    else if p.action == "activate-layout" then
      if p.layoutId.Some? then Ok(ActivateLayout(p.layoutId.value))
      else Err("activate-layout action requires layout_id")
    else
      match JsonStringBody(p.action)
      case None => Err("Unknown action: " + p.action)
      case Some(name) =>
        match FromName(name)
        case Some(a) => Ok(a)
        case None => Err("Unknown action: " + p.action)
  }

  /** A plain prefix decodes to itself in front of whatever the rest decodes to. */
  lemma {:induction false} PlainPrefixDecodes(p: string, s: string)
    requires Plain(p)
    ensures JsonStringBody(p + s) == (match JsonStringBody(s) case None => None case Some(t) => Some(p + t))
  {
    if p != [] {
      assert (p + s)[0] == p[0] && (p + s)[1..] == p[1..] + s;
      assert Plain(p[1..]) by {
        forall i | 0 <= i < |p[1..]| ensures PlainChar(p[1..][i]) {
          assert p[1..][i] == p[i + 1];
        }
      }
      PlainPrefixDecodes(p[1..], s);
      assert JsonStringBody(p + s) == Prepend(p[0], JsonStringBody(p[1..] + s));
      match JsonStringBody(s)
      case None =>
      case Some(t) =>
        assert [p[0]] + (p[1..] + t) == p + t;
    } else {
      assert p + s == s;
      match JsonStringBody(s)
      case None =>
      case Some(t) =>
        assert p + t == t;
    }
  }

  /** Plain text with one `\\u002d` escape decodes to that text with a hyphen in its place. */
  lemma HyphenEscapeDecodes(pre: string, post: string)
    requires Plain(pre) && Plain(post)
    ensures JsonStringBody(pre + "\\u002d" + post) == Some(pre + "-" + post)
  {
    var e := "\\u002d" + post;
    assert e[0] == '\\' && e[1] == 'u' && e[2..6] == "002d" && e[6..] == post;
    assert Hex4("002d") == Some(0x2d);
    assert EscapeAt(e) == Some(('-', 6));
    PlainDecodesToItself(post);
    assert JsonStringBody(e) == Some("-" + post);
    PlainPrefixDecodes(pre, e);
    assert pre + "\\u002d" + post == pre + e;
    assert pre + ("-" + post) == pre + "-" + post;
  }

  /** Text with an escaped hyphen is neither of the two names matched before decoding. */
  lemma EscapedTextIsNoDataName(pre: string, post: string)
    ensures pre + "\\u002d" + post != "apply-zone" && pre + "\\u002d" + post != "activate-layout"
  {
    var text := pre + "\\u002d" + post;
    assert text[|pre|] == '\\';
    NamesArePlain9();
  }

  /** A payload naming a simple action with its hyphen escaped reads as that action. */
  lemma EscapedHyphenReads(pre: string, post: string, a: LayoutAction)
    requires Plain(pre) && Plain(post) && IsSimple(a) && Name(a) == pre + "-" + post
    ensures ToAction(ActionPayload(pre + "\\u002d" + post, None, None)) == Ok(a)
  {
    HyphenEscapeDecodes(pre, post);
    EscapedTextIsNoDataName(pre, post);
    NameRoundTrip(a);
    var r := ToAction(ActionPayload(pre + "\\u002d" + post, None, None));
    NameRoundTrip(r.value);
  }

  /** "left\\u002dhalf" reads as the left half, as serde decodes the escape first. */
  lemma EscapedNameReads()
    ensures ToAction(ActionPayload("left\\u002dhalf", None, None)) == Ok(LeftHalf)
  {
    assert Plain("left") && Plain("half");
    assert "left" + "\\u002d" + "half" == "left\\u002dhalf";
    EscapedHyphenReads("left", "half", LeftHalf);
  }

  /**
   * A data variant's name with its hyphen escaped is not matched as that
   * variant, which is told by the text as it is, and serde reads no simple
   * variant from the decoded name: the payload is refused whatever its fields.
   */
  lemma EscapedDataNameFails(pre: string, post: string, zoneNumber: Option<u32>, layoutId: Option<string>)
    requires Plain(pre) && Plain(post)
    requires pre + "-" + post == "apply-zone" || pre + "-" + post == "activate-layout"
    ensures ToAction(ActionPayload(pre + "\\u002d" + post, zoneNumber, layoutId)).Err?
  {
    HyphenEscapeDecodes(pre, post);
    EscapedTextIsNoDataName(pre, post);
    assert FromName("apply-zone") == None && FromName("activate-layout") == None;
  }

  /** "apply\\u002dzone" is refused, though it decodes to "apply-zone". */
  lemma EscapedApplyZoneFails(zoneNumber: Option<u32>, layoutId: Option<string>)
    ensures ToAction(ActionPayload("apply\\u002dzone", zoneNumber, layoutId)).Err?
  {
    assert Plain("apply") && Plain("zone");
    assert "apply" + "\\u002d" + "zone" == "apply\\u002dzone";
    EscapedDataNameFails("apply", "zone", zoneNumber, layoutId);
  }

  /** Text without a backslash that parses decodes to itself. */
  lemma {:induction false} NoEscapeDecodesToItself(s: string)
    requires forall i :: 0 <= i < |s| ==> s[i] != '\\'
    requires JsonStringBody(s).Some?
    ensures JsonStringBody(s) == Some(s)
  {
    if s != [] {
      NoEscapeDecodesToItself(s[1..]);
      assert s == [s[0]] + s[1..];
    }
  }

  /**
   * Writing a payload (`From<LayoutAction>`): a simple variant carries only its name, the two
   * data variants their data in the matching field; reading it back gives
   * the action again.
   */
  function ToPayload(a: LayoutAction): (p: ActionPayload)
    ensures p.action == Name(a)
    ensures p.zoneNumber.Some? <==> a.ApplyZone?
    ensures p.layoutId.Some? <==> a.ActivateLayout?
    ensures ToAction(p) == Ok(a)
  {
    if a.ApplyZone? then ActionPayload("apply-zone", Some(a.zone), None)
    else if a.ActivateLayout? then ActionPayload("activate-layout", None, Some(a.layoutId))
    else
      SimpleNameReads(a);
      ActionPayload(Name(a), None, None)
  }

  /** The payload of a simple variant, its bare name, reads as that variant. */
  lemma SimpleNameReads(a: LayoutAction)
    requires IsSimple(a)
    ensures ToAction(ActionPayload(Name(a), None, None)) == Ok(a)
  {
    NameRoundTrip(a);
    SimpleNamesAreNotDataNames(a);
    NamesArePlain(a);
    PlainDecodesToItself(Name(a));
  }

  /**
   * The other direction: a payload that reads as an action and carries no
   * field its action does not use is what that action writes, up to the
   * JSON escapes in its name, and exactly that when the name has none.
   */
  lemma PayloadRoundTrip(p: ActionPayload)
    requires ToAction(p).Ok?
    requires p.action != "apply-zone" ==> p.zoneNumber.None?
    requires p.action != "activate-layout" ==> p.layoutId.None?
    requires p.action == "apply-zone" ==> p.layoutId.None?
    requires p.action == "activate-layout" ==> p.zoneNumber.None?
    ensures JsonStringBody(p.action).Some?
    ensures ToPayload(ToAction(p).value) == p.(action := JsonStringBody(p.action).value)
    ensures (forall i :: 0 <= i < |p.action| ==> p.action[i] != '\\') ==> ToPayload(ToAction(p).value) == p
  {
    var a := ToAction(p).value;
    if IsSimple(a) {
      SimplePayloadRoundTrip(p, a);
    } else {
      DataPayloadRoundTrip(p, a);
    }
    if forall i :: 0 <= i < |p.action| ==> p.action[i] != '\\' {
      NoEscapeDecodesToItself(p.action);
    }
  }

  /** A payload read as a simple variant holds that variant's name, once decoded, and nothing else. */
  lemma SimplePayloadRoundTrip(p: ActionPayload, a: LayoutAction)
    requires ToAction(p) == Ok(a) && IsSimple(a)
    requires p.zoneNumber.None? && p.layoutId.None?
    ensures JsonStringBody(p.action) == Some(Name(a))
    ensures ToPayload(a) == p.(action := Name(a))
  {
    SimpleNamesAreNotDataNames(a);
  }

  /** A payload read as a data variant is what that variant writes. */
  lemma DataPayloadRoundTrip(p: ActionPayload, a: LayoutAction)
    requires ToAction(p) == Ok(a) && !IsSimple(a)
    requires p.action != "apply-zone" ==> p.zoneNumber.None?
    requires p.action != "activate-layout" ==> p.layoutId.None?
    requires p.action == "apply-zone" ==> p.layoutId.None?
    requires p.action == "activate-layout" ==> p.zoneNumber.None?
    ensures JsonStringBody(p.action) == Some(p.action)
    ensures ToPayload(a) == p
  {
    NamesArePlain(a);
    PlainDecodesToItself(Name(a));
  }
}

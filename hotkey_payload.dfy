/**
 * The front end's side of the hotkey payload: building the payload object
 * for a hotkey and writing it as the JSON text the back end stores. The
 * back end reads that text with `LayoutActions.ToAction`.
 */
module HotkeyPayload {
  import opened Wrappers
  import opened LayoutActions

  /** The front end's payload object; `zone_number` is present only for a zone hotkey. */
  datatype TsActionPayload = TsActionPayload(action: string, zoneNumber: Option<int>)

  /** JavaScript truthiness of an optional string: present and not empty. */
  predicate IsSet(s: Option<string>) {
    s.Some? && s.value != ""
  }

  /**
   * `createActionPayload`: a zone number wins over the layout action; an
   * absent or empty layout action gives no payload.
   */
  function CreateActionPayload(layoutAction: Option<string>, zoneNumber: Option<int>): (r: Option<TsActionPayload>)
    ensures r.Some? <==> zoneNumber.Some? || IsSet(layoutAction)
    ensures r.Some? ==> (r.value.zoneNumber.Some? <==> r.value.action == "apply-zone" && zoneNumber.Some?)
    ensures r.Some? && zoneNumber.Some? ==> r.value.zoneNumber == zoneNumber
    ensures r.Some? && zoneNumber.None? ==> r.value.action == layoutAction.value
  {
    if zoneNumber.Some? then Some(TsActionPayload("apply-zone", zoneNumber))
    else if IsSet(layoutAction) then Some(TsActionPayload(layoutAction.value, None))
    else None
  }

  /** The JSON escape of one character: a backslash before `"` and `\`. */
  function EscapeChar(c: char): string {
    if c == '"' || c == '\\' then ['\\', c] else [c]
  }

  /** The body of a JSON string literal for `s`. */
  function Escape(s: string): (r: string)
    ensures |r| >= |s|
  {
    if |s| == 0 then "" else EscapeChar(s[0]) + Escape(s[1..])
  }

  /** Reading the body of a JSON string literal back: a backslash takes the next character literally. */
  function Unescape(s: string): string
    decreases |s|
  {
    if |s| == 0 then ""
    else if s[0] == '\\' && |s| >= 2 then [s[1]] + Unescape(s[2..])
    else [s[0]] + Unescape(s[1..])
  }

  /** `JSON.stringify` of a string. */
  function JsonString(s: string): (r: string)
    ensures |r| >= 2 && r[0] == '"' && r[|r| - 1] == '"'
  {
    "\"" + Escape(s) + "\""
  }

  /** Unescaping an escaped string gives it back. */
  lemma {:induction false} UnescapeEscape(s: string)
    ensures Unescape(Escape(s)) == s
  {
    if |s| > 0 {
      UnescapeEscape(s[1..]);
      var e := Escape(s);
      assert e == EscapeChar(s[0]) + Escape(s[1..]);
      if s[0] == '"' || s[0] == '\\' {
        assert e[2..] == Escape(s[1..]);
      } else {
        assert e[1..] == Escape(s[1..]);
      }
      assert [s[0]] + s[1..] == s;
    }
  }

  /** A string with nothing to escape is its own escape. */
  lemma {:induction false} EscapePlain(s: string)
    requires '"' !in s && '\\' !in s
    ensures Escape(s) == s
  {
    if |s| > 0 {
      assert '"' !in s[1..] && '\\' !in s[1..] by {
        forall k | 0 <= k < |s[1..]| ensures s[1..][k] != '"' && s[1..][k] != '\\' {
          assert s[1..][k] == s[k + 1];
        }
      }
      EscapePlain(s[1..]);
      assert [s[0]] + s[1..] == s;
    }
  }

  /** The decimal digit for `d`. */
  function Digit(d: nat): char
    requires d < 10
  {
    (d + '0' as int) as char
  }

  /** The decimal digits of a natural number, with no leading zero. */
  function NatToString(n: nat): (r: string)
    ensures |r| >= 1
    ensures forall i :: 0 <= i < |r| ==> '0' <= r[i] <= '9'
    ensures |r| > 1 ==> r[0] != '0'
  {
    if n < 10 then [Digit(n)] else NatToString(n / 10) + [Digit(n % 10)]
  }

  /** The value of a string of decimal digits. */
  function ParseNat(s: string): nat
    requires forall i :: 0 <= i < |s| ==> '0' <= s[i] <= '9'
  {
    if |s| == 0 then 0
    else ParseNat(s[..|s| - 1]) * 10 + (s[|s| - 1] as int - '0' as int)
  }

  /** Reading the digits back gives the number. */
  lemma {:induction false} ParseNatToString(n: nat)
    ensures ParseNat(NatToString(n)) == n
  {
    if n >= 10 {
      ParseNatToString(n / 10);
      var s := NatToString(n);
      assert s[..|s| - 1] == NatToString(n / 10);
    }
  }

  /** `JSON.stringify` of an integer-valued number. */
  function IntToString(n: int): (r: string)
    ensures n >= 0 ==> r == NatToString(n)
    ensures n < 0 ==> r == "-" + NatToString(-n)
  {
    if n >= 0 then NatToString(n) else "-" + NatToString(-n)
  }

  /** `JSON.stringify` of a payload object, fields in the order they were set. */
  function ToJson(p: TsActionPayload): (r: string)
    ensures |r| >= 2 && r[0] == '{' && r[|r| - 1] == '}'
  {
    "{\"action\":" + JsonString(p.action)
    + (if p.zoneNumber.Some? then ",\"zone_number\":" + IntToString(p.zoneNumber.value) else "")
    + "}"
  }

  /**
   * `serializeLayoutAction`: `JSON.stringify` of the zone payload when a zone
   * number is given, else of the bare action when it is set, else the empty string.
   */
  function SerializeLayoutAction(action: Option<string>, zoneNumber: Option<int>): (r: string)
    ensures r == "" <==> zoneNumber.None? && !IsSet(action)
    ensures r != "" ==> r[0] == '{' && r[|r| - 1] == '}'
  {
    if zoneNumber.Some? then ToJson(TsActionPayload("apply-zone", zoneNumber))
    else if IsSet(action) then ToJson(TsActionPayload(action.value, None))
    else ""
  }

  /** The JSON of a string with nothing to escape is the string in quotes. */
  lemma JsonStringPlain(s: string)
    requires '"' !in s && '\\' !in s
    ensures JsonString(s) == "\"" + s + "\""
  {
    EscapePlain(s);
  }

  /** The name a zone payload carries has nothing to escape. */
  lemma ApplyZoneNameIsPlain(name: string)
    requires name == "apply-zone"
    ensures '"' !in name && '\\' !in name
  {
  }

  /** The JSON of a zone payload whose name needs no escaping, written out. */
  lemma PlainZonePayloadText(name: string, n: int)
    requires '"' !in name && '\\' !in name
    ensures ToJson(TsActionPayload(name, Some(n))) ==
      "{\"action\":" + ("\"" + name + "\"") + ",\"zone_number\":" + IntToString(n) + "}"
  {
    JsonStringPlain(name);
  }

  /** The stored text of a hotkey whose action name needs no escaping, written out. */
  lemma ActionHotkeyText(action: string)
    requires action != "" && '"' !in action && '\\' !in action
    ensures SerializeLayoutAction(Some(action), None) == "{\"action\":\"" + action + "\"}"
  {
    JsonStringPlain(action);
  }

  /**
   * The two helpers agree: the stored text is the JSON of the payload
   * `createActionPayload` builds, and empty exactly when it builds none.
   */
  lemma SerializeIsJsonOfPayload(action: Option<string>, zoneNumber: Option<int>)
    ensures CreateActionPayload(action, zoneNumber).Some? ==>
      SerializeLayoutAction(action, zoneNumber) == ToJson(CreateActionPayload(action, zoneNumber).value)
    ensures CreateActionPayload(action, zoneNumber).None? <==> SerializeLayoutAction(action, zoneNumber) == ""
  {
  }

  /** What the back end makes of the payload: the same name and zone, with no layout id. */
  function AsRustPayload(p: TsActionPayload): (r: Option<ActionPayload>)
    ensures r.Some? <==> p.zoneNumber.None? || 0 <= p.zoneNumber.value < 0x1_0000_0000
    ensures r.Some? ==> r.value.action == p.action && r.value.layoutId.None?
    ensures r.Some? && p.zoneNumber.Some? ==> r.value.zoneNumber == Some(p.zoneNumber.value as u32)
  {
    match p.zoneNumber
    case None => Some(ActionPayload(p.action, None, None))
    case Some(z) =>
      if 0 <= z < 0x1_0000_0000 then Some(ActionPayload(p.action, Some(z as u32), None)) else None
  }

  /**
   * A zone hotkey reads on the back end as applying that zone, and a hotkey
   * whose layout action is the name of a simple action reads as that action.
   */
  lemma BackEndReadsHotkey(action: Option<string>, zoneNumber: Option<int>)
    requires CreateActionPayload(action, zoneNumber).Some?
    ensures var p := CreateActionPayload(action, zoneNumber).value;
      zoneNumber.Some? && 0 <= zoneNumber.value < 0x1_0000_0000 ==>
        AsRustPayload(p).Some? && ToAction(AsRustPayload(p).value) == Ok(ApplyZone(zoneNumber.value as u32))
    ensures var p := CreateActionPayload(action, zoneNumber).value;
      forall a :: zoneNumber.None? && IsSimple(a) && action == Some(Name(a)) ==>
        AsRustPayload(p).Some? && ToAction(AsRustPayload(p).value) == Ok(a)
  {
    forall a | zoneNumber.None? && IsSimple(a) && action == Some(Name(a))
      ensures AsRustPayload(CreateActionPayload(action, zoneNumber).value).Some?
      ensures ToAction(AsRustPayload(CreateActionPayload(action, zoneNumber).value).value) == Ok(a)
    {
      NameRoundTrip(a);
      SimpleNamesAreNotDataNames(a);
      var p := ToPayload(a);
      assert AsRustPayload(CreateActionPayload(action, zoneNumber).value) == Some(p);
    }
  }
}

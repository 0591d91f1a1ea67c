/** The client-side user identifier: 'user-' followed by a UUID-v4-shaped
    string (src/app/services/agent.service.ts:194-207). The randomness is a
    parameter: one nibble per placeholder of the template, consumed left to
    right, as the `replace` callback draws `Math.random()` once per match. */
module UserIds {

  /** `(Math.random() * 16) | 0`: an integer in 0..15. */
  newtype Nibble = x: int | 0 <= x < 16

  /** The five groups of the template "xxxxxxxx-xxxx-4xxx-yxxx-xxxxxxxxxxxx". */
  const UuidTemplate: string := "xxxxxxxx" + "-xxxx" + "-4xxx" + "-yxxx" + "-xxxxxxxxxxxx"

  /** Number of random draws one identifier takes. */
  const UuidDraws: nat := 31

  const HexDigits: string := "0123456789abcdef"

  predicate IsHexDigit(c: char) {
    '0' <= c <= '9' || 'a' <= c <= 'f'
  }

  /** The digits `(r & 0x3) | 0x8` can produce: 8, 9, a, b. */
  predicate IsVariantDigit(c: char) {
    '8' <= c <= '9' || 'a' <= c <= 'b'
  }

  /** `v.toString(16)` for a nibble: one lower-case hex digit. */
  function HexDigit(v: Nibble): (c: char)
    ensures IsHexDigit(c)
  {
    HexDigits[v]
  }

  /** Reads one lower-case hex digit back. */
  function HexValue(c: char): (v: Nibble)
    requires IsHexDigit(c)
    ensures HexDigit(v) == c
  {
    if c <= '9' then (c - '0') as Nibble else (c - 'a' + 10 as char) as Nibble
  }

  /** The variant nibble `(r & 0x3) | 0x8`. */
  function Variant(r: Nibble): (v: Nibble)
    ensures 8 <= v <= 11
    ensures v == 8 + r % 4
  {
    ((((r as bv4) & 0x3) | 0x8) as int) as Nibble
  }

  /** Number of characters of `t` the pattern /[xy]/g matches. */
  function Placeholders(t: string): nat {
    if t == [] then 0
    else (if t[0] == 'x' || t[0] == 'y' then 1 else 0) + Placeholders(t[1..])
  }

  /** `t.replace(/[xy]/g, ...)` with the draws `rs`: an 'x' becomes the next
      draw's digit, a 'y' the variant digit of the next draw, anything else
      stays. */
  function Fill(t: string, rs: seq<Nibble>): string
    requires |rs| == Placeholders(t)
    decreases t
  {
    if t == [] then []
    else if t[0] == 'x' then [HexDigit(rs[0])] + Fill(t[1..], rs[1..])
    else if t[0] == 'y' then [HexDigit(Variant(rs[0]))] + Fill(t[1..], rs[1..])
    else [t[0]] + Fill(t[1..], rs)
  }

  /** `uuidv4()` given its draws. */
  function Uuidv4(rs: seq<Nibble>): string
    requires |rs| == UuidDraws
  {
    TemplateDraws();
    Fill(UuidTemplate, rs)
  }

  /** `generateUserId()` given the draws of its `uuidv4()` call. */
  function GenerateUserId(rs: seq<Nibble>): string
    requires |rs| == UuidDraws
  {
    "user-" + Uuidv4(rs)
  }

  /** A generated user id is 'user-' followed by a v4-shaped UUID. */
  lemma GeneratedUserIdShape(rs: seq<Nibble>)
    requires |rs| == UuidDraws
    ensures var id := GenerateUserId(rs);
      |id| == 41 && id[..5] == "user-" && IsV4Shaped(id[5..])
  {
    UuidIsV4Shaped(rs);
    var u := Uuidv4(rs);
    assert ("user-" + u)[5..] == u;
  }

  /** What character the template may turn into at one place. */
  predicate SlotConforms(tc: char, c: char) {
    if tc == 'x' then IsHexDigit(c)
    else if tc == 'y' then IsVariantDigit(c)
    else c == tc
  }

  /** `s` is one of the strings that filling `t` can give. */
  predicate Conforms(t: string, s: string) {
    |s| == |t| && forall i :: 0 <= i < |t| ==> SlotConforms(t[i], s[i])
  }

  /** What the template demands at position `i` of a UUID. */
  predicate ShapeAt(i: int, c: char) {
    if i == 8 || i == 13 || i == 18 || i == 23 then c == '-'
    else if i == 14 then c == '4'
    else if i == 19 then IsVariantDigit(c)
    else IsHexDigit(c)
  }

  /** 36 characters, hyphens at 8, 13, 18 and 23, '4' at 14, one of 8, 9, a, b
      at 19 and lower-case hex digits everywhere else. */
  predicate IsV4Shaped(u: string) {
    |u| == 36 && forall i :: 0 <= i < 36 ==> ShapeAt(i, u[i])
  }

  lemma {:induction false} PlaceholdersAppend(a: string, b: string)
    ensures Placeholders(a + b) == Placeholders(a) + Placeholders(b)
  {
    if a != [] {
      assert (a + b)[1..] == a[1..] + b;
      PlaceholdersAppend(a[1..], b);
    } else {
      assert a + b == b;
    }
  }

  lemma TemplateDraws()
    ensures Placeholders(UuidTemplate) == UuidDraws
  {
    var chunks := ["xxxx", "xxxx", "-xxx", "x-4x", "xx-y", "xxx-", "xxxx", "xxxx", "xxxx"];
    assert UuidTemplate == chunks[0] + chunks[1] + chunks[2] + chunks[3] + chunks[4]
                           + chunks[5] + chunks[6] + chunks[7] + chunks[8];
    assert Placeholders("xxxx") == 4;
    assert Placeholders("-xxx") == 3;
    assert Placeholders("x-4x") == 2;
    assert Placeholders("xx-y") == 3;
    assert Placeholders("xxx-") == 3;
    PlaceholdersAppend(chunks[0], chunks[1]);
    PlaceholdersAppend(chunks[0] + chunks[1], chunks[2]);
    PlaceholdersAppend(chunks[0] + chunks[1] + chunks[2], chunks[3]);
    PlaceholdersAppend(chunks[0] + chunks[1] + chunks[2] + chunks[3], chunks[4]);
    PlaceholdersAppend(chunks[0] + chunks[1] + chunks[2] + chunks[3] + chunks[4], chunks[5]);
    PlaceholdersAppend(chunks[0] + chunks[1] + chunks[2] + chunks[3] + chunks[4] + chunks[5], chunks[6]);
    PlaceholdersAppend(chunks[0] + chunks[1] + chunks[2] + chunks[3] + chunks[4] + chunks[5] + chunks[6], chunks[7]);
    PlaceholdersAppend(chunks[0] + chunks[1] + chunks[2] + chunks[3] + chunks[4] + chunks[5] + chunks[6] + chunks[7], chunks[8]);
  }

  /** Conforming to the template is exactly being UUID-v4 shaped. */
  lemma ConformsToTemplateIff(u: string)
    ensures Conforms(UuidTemplate, u) <==> IsV4Shaped(u)
  {
  }

  /** Whatever the draws, filling a template conforms to it. */
  lemma {:induction false} FillConforms(t: string, rs: seq<Nibble>)
    requires |rs| == Placeholders(t)
    ensures Conforms(t, Fill(t, rs))
  {
    if t != [] {
      var rest := if t[0] == 'x' || t[0] == 'y' then rs[1..] else rs;
      var head := if t[0] == 'x' then HexDigit(rs[0])
                  else if t[0] == 'y' then HexDigit(Variant(rs[0]))
                  else t[0];
      var tail := Fill(t[1..], rest);
      assert Fill(t, rs) == [head] + tail;
      FillConforms(t[1..], rest);
      assert SlotConforms(t[0], head) by {
        if t[0] == 'y' {
          var d := Variant(rs[0]);
          assert 8 <= d <= 11;
          assert HexDigits[d] == HexDigit(d);
        }
      }
      forall i | 0 <= i < |t| ensures SlotConforms(t[i], ([head] + tail)[i]) {
        if i > 0 {
          assert t[i] == t[1..][i - 1];
          assert ([head] + tail)[i] == tail[i - 1];
        }
      }
    }
  }

  /** The draws that give a conforming string: the inverse of `Fill`. */
  function Unfill(t: string, s: string): (rs: seq<Nibble>)
    requires Conforms(t, s)
    ensures |rs| == Placeholders(t)
    decreases t
  {
    if t == [] then []
    else
      assert SlotConforms(t[0], s[0]);
      assert Conforms(t[1..], s[1..]) by {
        forall i | 0 <= i < |t| - 1 ensures SlotConforms(t[1..][i], s[1..][i]) {
          assert SlotConforms(t[i + 1], s[i + 1]);
        }
      }
      if t[0] == 'x' || t[0] == 'y' then [HexValue(s[0])] + Unfill(t[1..], s[1..])
      else Unfill(t[1..], s[1..])
  }

  /** Every conforming string is the fill of the draws read back from it. */
  lemma {:induction false} FillUnfill(t: string, s: string)
    requires Conforms(t, s)
    ensures Fill(t, Unfill(t, s)) == s
  {
    if t != [] {
      assert SlotConforms(t[0], s[0]);
      assert Conforms(t[1..], s[1..]) by {
        forall i | 0 <= i < |t| - 1 ensures SlotConforms(t[1..][i], s[1..][i]) {
          assert SlotConforms(t[i + 1], s[i + 1]);
        }
      }
      FillUnfill(t[1..], s[1..]);
      var rs := Unfill(t, s);
      if t[0] == 'y' {
        var v := HexValue(s[0]);
        assert 8 <= v <= 11;
        assert Variant(v) == v;
      }
      assert s == [s[0]] + s[1..];
    }
  }

  /** Every generated UUID is v4 shaped. */
  lemma UuidIsV4Shaped(rs: seq<Nibble>)
    requires |rs| == UuidDraws
    ensures IsV4Shaped(Uuidv4(rs))
  {
    TemplateDraws();
    FillConforms(UuidTemplate, rs);
    ConformsToTemplateIff(Uuidv4(rs));
  }

  /** Conversely, every v4-shaped string is generated by some draws. */
  lemma EveryV4ShapedIsGenerated(u: string)
    requires IsV4Shaped(u)
    ensures exists rs :: |rs| == UuidDraws && Uuidv4(rs) == u
  {
    ConformsToTemplateIff(u);
    TemplateDraws();
    FillUnfill(UuidTemplate, u);
    var rs := Unfill(UuidTemplate, u);
    assert Uuidv4(rs) == u;
  }
}

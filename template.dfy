/**
 * Python's `string.Template(text).substitute(mapping)`, the way the wrapper
 * renders its configuration files.
 *
 * `Substitute` scans raw text as Python's pattern does: `$$` is an escaped
 * dollar, `$name` and `${name}` are placeholders (a name is `[_a-zA-Z]`
 * followed by `[_a-zA-Z0-9]*`, taken as long as possible), and any other `$`
 * is an invalid placeholder (Python raises ValueError). A placeholder is looked
 * up in the mapping: a plain dict raises KeyError for a missing name, a
 * `collections.defaultdict(str)` yields "".
 *
 * `Template` is the same text cut at its placeholders: a literal head, then
 * slots, each a placeholder name and the literal that follows it. `Render`
 * works on that form; `SubstituteText` proves the two agree.
 */
module Template {
  import opened Wrappers
  import Text

  datatype TemplateError =
    | KeyError(key: string)      // a plain dict has no entry for a placeholder
    | InvalidPlaceholder         // a `$` that starts no escape and no placeholder

  /** The mapping handed to `substitute`. */
  datatype Mapping =
    | Dict(entries: map<string, string>)
    | DefaultDict(entries: map<string, string>)   // collections.defaultdict(str)

  predicate IsIdentifierStart(c: char) {
    c == '_' || 'a' <= c <= 'z' || 'A' <= c <= 'Z'
  }

  predicate IsIdentifierChar(c: char) {
    IsIdentifierStart(c) || '0' <= c <= '9'
  }

  predicate IsIdentifier(s: string) {
    |s| > 0 && IsIdentifierStart(s[0]) && forall c | c in s :: IsIdentifierChar(c)
  }

  /** The value a defaultdict(str) gives for `key`. */
  function Get(entries: map<string, string>, key: string): string {
    if key in entries then entries[key] else ""
  }

  /** `mapping[key]` as `substitute` performs it. */
  function Lookup(m: Mapping, key: string): (r: Result<string, TemplateError>)
    ensures m.DefaultDict? ==> r == Ok(Get(m.entries, key))
    ensures m.Dict? ==> (r.Ok? <==> key in m.entries)
    ensures m.Dict? && key in m.entries ==> r == Ok(m.entries[key])
    ensures r.Err? ==> r.error == KeyError(key)
  {
    match m
    case Dict(e) => if key in e then Ok(e[key]) else Err(KeyError(key))
    case DefaultDict(e) => Ok(Get(e, key))
  }

  /** The longest prefix of `s` made of identifier characters. */
  function IdentifierPrefix(s: string): (r: string)
    ensures |r| <= |s| && r == s[..|r|]
    ensures forall k :: 0 <= k < |r| ==> IsIdentifierChar(r[k])
    ensures |r| == |s| || !IsIdentifierChar(s[|r|])
    decreases |s|
  {
    if s == [] || !IsIdentifierChar(s[0]) then []
    else [s[0]] + IdentifierPrefix(s[1..])
  }

  /** `s` in front of a successful result; an error passes through. */
  function Prepend(s: string, r: Result<string, TemplateError>): Result<string, TemplateError> {
    if r.Ok? then Ok(s + r.value) else r
  }

  /** Python's `Template(t).substitute(m)`: the substituted text, or the first error met scanning left to right. */
  function Substitute(t: string, m: Mapping): Result<string, TemplateError>
    decreases |t|
  {
    if t == [] then Ok([])
    else if t[0] != '$' then Prepend([t[0]], Substitute(t[1..], m))
    else if |t| > 1 && t[1] == '$' then Prepend("$", Substitute(t[2..], m))
    else if |t| > 1 && IsIdentifierStart(t[1]) then
      var name := IdentifierPrefix(t[1..]);
      var v := Lookup(m, name);
      if v.Err? then Err(v.error) else Prepend(v.value, Substitute(t[1 + |name|..], m))
    else if |t| > 2 && t[1] == '{' && IsIdentifierStart(t[2])
            && 2 + |IdentifierPrefix(t[2..])| < |t| && t[2 + |IdentifierPrefix(t[2..])|] == '}' then
      var name := IdentifierPrefix(t[2..]);
      var v := Lookup(m, name);
      if v.Err? then Err(v.error) else Prepend(v.value, Substitute(t[3 + |name|..], m))
    else Err(InvalidPlaceholder)
  }

  /** Text holding no `$`, stated one character at a time. */
  predicate DollarFree(s: string)
    decreases |s|
  {
    s == [] || (s[0] != '$' && DollarFree(s[1..]))
  }

  lemma {:induction false} DollarFreeIff(s: string)
    ensures DollarFree(s) <==> '$' !in s
    decreases |s|
  {
    if s != [] {
      DollarFreeIff(s[1..]);
      assert s == [s[0]] + s[1..];
    }
  }

  /** Two texts put together are `$`-free exactly when both are. */
  lemma {:induction false} DollarFreeAppend(a: string, b: string)
    ensures DollarFree(a + b) <==> DollarFree(a) && DollarFree(b)
    decreases |a|
  {
    if a == [] {
      assert a + b == b;
    } else {
      assert (a + b)[1..] == a[1..] + b;
      DollarFreeAppend(a[1..], b);
    }
  }

  /** The first character of `a + b` is the first character of `a`. */
  lemma FirstOfAppend(a: string, b: string)
    requires a != []
    ensures (a + b)[0] == a[0]
  {
  }

  /** Literal text in front of the rest is copied unchanged. */
  lemma {:induction false} SubstituteLiteralPrefix(lit: string, rest: string, m: Mapping)
    requires DollarFree(lit)
    ensures Substitute(lit + rest, m) == Prepend(lit, Substitute(rest, m))
    decreases |lit|
  {
    if lit != [] {
      var t := lit + rest;
      assert t[0] == lit[0] && t[1..] == lit[1..] + rest;
      SubstituteLiteralPrefix(lit[1..], rest, m);
      PrependPrepend([lit[0]], lit[1..], Substitute(rest, m));
      assert [lit[0]] + lit[1..] == lit;
    } else {
      assert lit + rest == rest;
      var r := Substitute(rest, m);
      assert r.Ok? ==> lit + r.value == r.value;
    }
  }

  /** Text without `$` is returned unchanged, whatever the mapping. */
  lemma NoDollarUnchanged(t: string, m: Mapping)
    requires '$' !in t
    ensures Substitute(t, m) == Ok(t)
  {
    DollarFreeIff(t);
    SubstituteLiteralPrefix(t, [], m);
    assert t + [] == t;
  }

  /** An identifier followed by a non-identifier character (or nothing) is read whole. */
  lemma {:induction false} IdentifierPrefixOf(name: string, rest: string)
    requires forall c | c in name :: IsIdentifierChar(c)
    requires rest == [] || !IsIdentifierChar(rest[0])
    ensures IdentifierPrefix(name + rest) == name
    decreases |name|
  {
    if name == [] {
      assert name + rest == rest;
    } else {
      assert (name + rest)[1..] == name[1..] + rest;
      assert name[0] in name;
      assert forall c | c in name[1..] :: c in name;
      IdentifierPrefixOf(name[1..], rest);
      assert [name[0]] + name[1..] == name;
    }
  }

  /** `$name` followed by a delimiting rest is replaced by the mapping's value for `name`. */
  lemma SubstitutePlaceholder(name: string, rest: string, m: Mapping)
    requires IsIdentifier(name)
    requires rest == [] || !IsIdentifierChar(rest[0])
    ensures Substitute("$" + name + rest, m) ==
      (var v := Lookup(m, name); if v.Err? then Err(v.error) else Prepend(v.value, Substitute(rest, m)))
  {
    var t := "$" + name + rest;
    assert t[1..] == name + rest;
    IdentifierPrefixOf(name, rest);
    assert t[1 + |name|..] == rest;
  }

  /** Under a defaultdict the KeyError branch is never taken, whatever the text. */
  lemma {:induction false} DefaultDictNoKeyError(t: string, entries: map<string, string>)
    ensures !Substitute(t, DefaultDict(entries)).Err? || Substitute(t, DefaultDict(entries)).error == InvalidPlaceholder
    decreases |t|
  {
    if t == [] {
    } else if t[0] != '$' {
      DefaultDictNoKeyError(t[1..], entries);
    } else if |t| > 1 && t[1] == '$' {
      DefaultDictNoKeyError(t[2..], entries);
    } else if |t| > 1 && IsIdentifierStart(t[1]) {
      DefaultDictNoKeyError(t[1 + |IdentifierPrefix(t[1..])|..], entries);
    } else if |t| > 2 && t[1] == '{' && IsIdentifierStart(t[2])
            && 2 + |IdentifierPrefix(t[2..])| < |t| && t[2 + |IdentifierPrefix(t[2..])|] == '}' {
      DefaultDictNoKeyError(t[3 + |IdentifierPrefix(t[2..])|..], entries);
    }
  }

  // ---- The template cut at its placeholders ----

  /** A placeholder and the literal text after it, up to the next placeholder. */
  datatype Slot = Slot(name: string, tail: string)

  datatype Template = Template(head: string, slots: seq<Slot>)

  /** The slots written out: `$name` then its tail, for each slot in order. */
  function SlotsText(slots: seq<Slot>): string {
    if slots == [] then []
    else "$" + slots[0].name + slots[0].tail + SlotsText(slots[1..])
  }

  /** The template's source text. */
  function TemplateText(t: Template): string {
    t.head + SlotsText(t.slots)
  }

  /** How many slots hold placeholder `key`. */
  function Occurrences(slots: seq<Slot>, key: string): nat {
    if slots == [] then 0
    else (if slots[0].name == key then 1 else 0) + Occurrences(slots[1..], key)
  }

  /**
   * A slot reads back as itself: a valid name, no `$` in its literal tail, and
   * a tail that does not continue the name.
   */
  predicate SlotWellFormed(s: Slot) {
    IsIdentifier(s.name) && DollarFree(s.tail) && (s.tail == [] || !IsIdentifierChar(s.tail[0]))
  }

  predicate SlotsWellFormed(slots: seq<Slot>) {
    forall k | 0 <= k < |slots| :: SlotWellFormed(slots[k])
  }

  predicate WellFormed(t: Template) {
    DollarFree(t.head) && SlotsWellFormed(t.slots)
  }

  /** A template of three well-formed slots after a `$`-free head is well-formed. */
  lemma WellFormedOfThree(head: string, a: Slot, b: Slot, c: Slot)
    requires DollarFree(head)
    requires SlotWellFormed(a) && SlotWellFormed(b) && SlotWellFormed(c)
    ensures WellFormed(Template(head, [a, b, c]))
  {
  }

  /** A template of eight well-formed slots after a `$`-free head is well-formed. */
  lemma WellFormedOfEight(head: string, a: Slot, b: Slot, c: Slot, d: Slot, f: Slot, g: Slot, h: Slot, i: Slot)
    requires DollarFree(head)
    requires SlotWellFormed(a) && SlotWellFormed(b) && SlotWellFormed(c) && SlotWellFormed(d)
    requires SlotWellFormed(f) && SlotWellFormed(g) && SlotWellFormed(h) && SlotWellFormed(i)
    ensures WellFormed(Template(head, [a, b, c, d, f, g, h, i]))
  {
  }

  /** The slots rendered in order, or the first failing lookup. */
  function RenderSlots(slots: seq<Slot>, m: Mapping): Result<string, TemplateError> {
    if slots == [] then Ok([])
    else
      var v := Lookup(m, slots[0].name);
      if v.Err? then Err(v.error)
      else Prepend(v.value + slots[0].tail, RenderSlots(slots[1..], m))
  }

  /** The template rendered with `m`. */
  function Render(t: Template, m: Mapping): Result<string, TemplateError> {
    Prepend(t.head, RenderSlots(t.slots, m))
  }

  /** `Prepend` of two strings is `Prepend` of their concatenation. */
  lemma PrependPrepend(a: string, b: string, r: Result<string, TemplateError>)
    ensures Prepend(a, Prepend(b, r)) == Prepend(a + b, r)
  {
    if r.Ok? {
      assert a + (b + r.value) == (a + b) + r.value;
    }
  }

  lemma {:induction false} SubstituteSlots(slots: seq<Slot>, m: Mapping)
    requires SlotsWellFormed(slots)
    ensures Substitute(SlotsText(slots), m) == RenderSlots(slots, m)
    decreases |slots|
  {
    if slots != [] {
      var s := slots[0];
      var restText := SlotsText(slots[1..]);
      assert SlotsText(slots) == "$" + s.name + (s.tail + restText);
      assert s.tail + restText == [] || !IsIdentifierChar((s.tail + restText)[0]) by {
        if s.tail == [] && restText != [] {
          assert restText[0] == '$';
        }
      }
      SubstitutePlaceholder(s.name, s.tail + restText, m);
      SubstituteLiteralPrefix(s.tail, restText, m);
      SubstituteSlots(slots[1..], m);
      var v := Lookup(m, s.name);
      if v.Ok? {
        PrependPrepend(v.value, s.tail, RenderSlots(slots[1..], m));
      }
    }
  }

  /**
   * Scanning a well-formed template's text gives the same result as rendering
   * it slot by slot, for every mapping.
   */
  lemma SubstituteText(t: Template, m: Mapping)
    requires WellFormed(t)
    ensures Substitute(TemplateText(t), m) == Render(t, m)
  {
    SubstituteLiteralPrefix(t.head, SlotsText(t.slots), m);
    SubstituteSlots(t.slots, m);
  }

  /** The slots filled from `entries`, a missing key giving `""`. */
  function FillSlots(slots: seq<Slot>, entries: map<string, string>): string {
    if slots == [] then []
    else Get(entries, slots[0].name) + slots[0].tail + FillSlots(slots[1..], entries)
  }

  /** Rendering with a defaultdict always succeeds, with every placeholder filled from `entries`. */
  lemma {:induction false} RenderSlotsDefaultDict(slots: seq<Slot>, entries: map<string, string>)
    ensures RenderSlots(slots, DefaultDict(entries)) == Ok(FillSlots(slots, entries))
    decreases |slots|
  {
    if slots != [] {
      RenderSlotsDefaultDict(slots[1..], entries);
      var g := Get(entries, slots[0].name);
      assert g + slots[0].tail + FillSlots(slots[1..], entries) == (g + slots[0].tail) + FillSlots(slots[1..], entries);
    }
  }

  /** Render with a defaultdict, as plain text. */
  function Fill(t: Template, entries: map<string, string>): (r: string)
    ensures Render(t, DefaultDict(entries)) == Ok(r)
  {
    RenderSlotsDefaultDict(t.slots, entries);
    t.head + FillSlots(t.slots, entries)
  }

  /** The filled slots as a list: each placeholder's value, then the text after it. */
  function Pieces(slots: seq<Slot>, entries: map<string, string>): (r: seq<string>)
    ensures |r| == 2 * |slots|
  {
    if slots == [] then []
    else [Get(entries, slots[0].name), slots[0].tail] + Pieces(slots[1..], entries)
  }

  /** The filled slots are their pieces glued together (`"".join`). */
  lemma {:induction false} FillSlotsPieces(slots: seq<Slot>, entries: map<string, string>)
    ensures FillSlots(slots, entries) == Text.Join("", Pieces(slots, entries))
    decreases |slots|
  {
    if slots != [] {
      var g, t := Get(entries, slots[0].name), slots[0].tail;
      var rest := Pieces(slots[1..], entries);
      FillSlotsPieces(slots[1..], entries);
      assert ([g, t] + rest)[1..] == [t] + rest;
      if rest == [] {
        assert slots[1..] == [];
      } else {
        assert ([t] + rest)[1..] == rest;
      }
    }
  }

  /** The pieces of a template of three slots, written out. */
  lemma PiecesOfThree(a: Slot, b: Slot, c: Slot, e: map<string, string>)
    ensures Pieces([a, b, c], e) == [
      Get(e, a.name), a.tail,
      Get(e, b.name), b.tail,
      Get(e, c.name), c.tail]
  {
    var ss := [a, b, c];
    assert Pieces(ss[3..], e) == [];
    assert ss[2..][1..] == ss[3..];
    assert Pieces(ss[2..], e) == [Get(e, c.name), c.tail] + Pieces(ss[3..], e);
    assert ss[1..][1..] == ss[2..];
    assert Pieces(ss[1..], e) == [Get(e, b.name), b.tail] + Pieces(ss[2..], e);
    assert ss[0..][1..] == ss[1..];
    assert Pieces(ss[0..], e) == [Get(e, a.name), a.tail] + Pieces(ss[1..], e);
    assert ss[0..] == ss;
  }

  /** The pieces of two slot lists put together are their pieces put together. */
  lemma {:induction false} PiecesAppend(s1: seq<Slot>, s2: seq<Slot>, e: map<string, string>)
    ensures Pieces(s1 + s2, e) == Pieces(s1, e) + Pieces(s2, e)
    decreases |s1|
  {
    if s1 == [] {
      assert s1 + s2 == s2;
    } else {
      assert (s1 + s2)[1..] == s1[1..] + s2;
      PiecesAppend(s1[1..], s2, e);
      var first := [Get(e, s1[0].name), s1[0].tail];
      assert first + (Pieces(s1[1..], e) + Pieces(s2, e)) == first + Pieces(s1[1..], e) + Pieces(s2, e);
    }
  }

  /** The pieces of four slots, written out. */
  lemma PiecesOfFour(a: Slot, b: Slot, c: Slot, d: Slot, e: map<string, string>)
    ensures Pieces([a, b, c, d], e) ==
      [Get(e, a.name), a.tail, Get(e, b.name), b.tail, Get(e, c.name), c.tail, Get(e, d.name), d.tail]
  {
    var ss := [a, b, c, d];
    assert Pieces(ss[4..], e) == [];
    assert ss[3..][1..] == ss[4..];
    assert ss[2..][1..] == ss[3..];
    assert ss[1..][1..] == ss[2..];
    assert Pieces(ss[3..], e) == [Get(e, d.name), d.tail];
    assert Pieces(ss[2..], e) == [Get(e, c.name), c.tail] + Pieces(ss[3..], e);
    assert Pieces(ss[1..], e) == [Get(e, b.name), b.tail] + Pieces(ss[2..], e);
  }

  /** The pieces of a template of eight slots, written out. */
  lemma PiecesOfEight(a: Slot, b: Slot, c: Slot, d: Slot, f: Slot, g: Slot, h: Slot, i: Slot, e: map<string, string>)
    ensures Pieces([a, b, c, d, f, g, h, i], e) == [
      Get(e, a.name), a.tail, Get(e, b.name), b.tail, Get(e, c.name), c.tail, Get(e, d.name), d.tail,
      Get(e, f.name), f.tail, Get(e, g.name), g.tail, Get(e, h.name), h.tail, Get(e, i.name), i.tail]
  {
    assert [a, b, c, d, f, g, h, i] == [a, b, c, d] + [f, g, h, i];
    PiecesAppend([a, b, c, d], [f, g, h, i], e);
    PiecesOfFour(a, b, c, d, e);
    PiecesOfFour(f, g, h, i, e);
  }

  /** A well-formed template's text, substituted from a defaultdict, is the template filled. */
  lemma SubstituteFilled(t: Template, entries: map<string, string>)
    requires WellFormed(t)
    ensures Substitute(TemplateText(t), DefaultDict(entries)) == Ok(Fill(t, entries))
  {
    SubstituteText(t, DefaultDict(entries));
  }

  /**
   * The rendered text cut at the occurrences of placeholder `key`: every other
   * placeholder is filled from `entries`. There is one more segment than there
   * are `key` slots.
   */
  function Segments(slots: seq<Slot>, entries: map<string, string>, key: string): (r: seq<string>)
    ensures |r| == 1 + Occurrences(slots, key)
  {
    if slots == [] then [[]]
    else
      var rest := Segments(slots[1..], entries, key);
      if slots[0].name == key then [[]] + [slots[0].tail + rest[0]] + rest[1..]
      else [Get(entries, slots[0].name) + slots[0].tail + rest[0]] + rest[1..]
  }

  /** The whole template's text cut at the occurrences of `key`. */
  function TemplateSegments(t: Template, entries: map<string, string>, key: string): (r: seq<string>)
    ensures |r| == 1 + Occurrences(t.slots, key)
  {
    var s := Segments(t.slots, entries, key);
    [t.head + s[0]] + s[1..]
  }

  lemma {:induction false} RenderSlotsAt(slots: seq<Slot>, entries: map<string, string>, key: string, v: string)
    ensures RenderSlots(slots, DefaultDict(entries[key := v])) == Ok(Text.Join(v, Segments(slots, entries, key)))
    decreases |slots|
  {
    if slots != [] {
      RenderSlotsAt(slots[1..], entries, key, v);
      if slots[0].name == key {
        RenderKeySlot(slots, entries, key, v);
      } else {
        RenderOtherSlot(slots, entries, key, v);
      }
    }
  }

  /** A `key` slot in front puts `v` in front of its tail and the rest's segments. */
  lemma RenderKeySlot(slots: seq<Slot>, entries: map<string, string>, key: string, v: string)
    requires slots != [] && slots[0].name == key
    requires RenderSlots(slots[1..], DefaultDict(entries[key := v])) == Ok(Text.Join(v, Segments(slots[1..], entries, key)))
    ensures RenderSlots(slots, DefaultDict(entries[key := v])) == Ok(Text.Join(v, Segments(slots, entries, key)))
  {
    var s := slots[0];
    var m := DefaultDict(entries[key := v]);
    var rest := Segments(slots[1..], entries, key);
    var restText := Text.Join(v, rest);
    assert Lookup(m, s.name) == Ok(v);
    assert RenderSlots(slots, m) == Ok(v + s.tail + restText);
    var glued := [s.tail + rest[0]] + rest[1..];
    Text.JoinPrependFirst(v, s.tail, rest);
    Text.JoinConsEmpty(v, glued);
    assert Segments(slots, entries, key) == [[]] + glued;
    assert v + (s.tail + restText) == v + s.tail + restText;
  }

  /** Any other slot in front is filled from `entries` and glued onto the first segment. */
  lemma RenderOtherSlot(slots: seq<Slot>, entries: map<string, string>, key: string, v: string)
    requires slots != [] && slots[0].name != key
    requires RenderSlots(slots[1..], DefaultDict(entries[key := v])) == Ok(Text.Join(v, Segments(slots[1..], entries, key)))
    ensures RenderSlots(slots, DefaultDict(entries[key := v])) == Ok(Text.Join(v, Segments(slots, entries, key)))
  {
    var s := slots[0];
    var m := DefaultDict(entries[key := v]);
    var rest := Segments(slots[1..], entries, key);
    var restText := Text.Join(v, rest);
    var g := Get(entries, s.name);
    assert Lookup(m, s.name) == Ok(g);
    assert RenderSlots(slots, m) == Ok(g + s.tail + restText);
    Text.JoinPrependFirst(v, g + s.tail, rest);
    assert Segments(slots, entries, key) == [g + s.tail + rest[0]] + rest[1..];
  }

  /**
   * Rendering with `key` bound to `v` is the same segments, whatever `v` is,
   * with `v` between neighbours: two renderings that differ only in the value
   * of `key` differ only at the places where `$key` stood.
   */
  lemma FillAt(t: Template, entries: map<string, string>, key: string, v: string)
    ensures Fill(t, entries[key := v]) == Text.Join(v, TemplateSegments(t, entries, key))
  {
    var s := Segments(t.slots, entries, key);
    RenderSlotsAt(t.slots, entries, key, v);
    Text.JoinPrependFirst(v, t.head, s);
  }

  /** Rendering with a defaultdict reads only the entries its placeholders name. */
  lemma {:induction false} RenderSlotsAgree(slots: seq<Slot>, e1: map<string, string>, e2: map<string, string>)
    requires forall k | 0 <= k < |slots| :: Get(e1, slots[k].name) == Get(e2, slots[k].name)
    ensures RenderSlots(slots, DefaultDict(e1)) == RenderSlots(slots, DefaultDict(e2))
    decreases |slots|
  {
    if slots != [] {
      assert Get(e1, slots[0].name) == Get(e2, slots[0].name);
      assert forall k | 0 <= k < |slots[1..]| :: slots[1..][k] == slots[k + 1];
      RenderSlotsAgree(slots[1..], e1, e2);
    }
  }

  /** Two maps that agree on a template's placeholders fill it alike. */
  lemma FillAgree(t: Template, e1: map<string, string>, e2: map<string, string>)
    requires forall k | 0 <= k < |t.slots| :: Get(e1, t.slots[k].name) == Get(e2, t.slots[k].name)
    ensures Fill(t, e1) == Fill(t, e2)
  {
    RenderSlotsAgree(t.slots, e1, e2);
  }
}

/**
 * Prompt templates and the prompt compiler.
 *
 * Every `prompt(f)` of the engine registry is one template literal in which each
 * interpolation has the form `${f.key || "default"}`. A template is modelled as the
 * sequence of its pieces: literal text, and slots that read one key of the form
 * values with a fallback. Compiling concatenates the pieces.
 */
module Templates {

  /** The form values: field key to the text the user entered or chose. */
  type Fields = map<string, string>

  datatype Segment =
    | Lit(text: string)
    | Slot(key: string, default: string)

  /** A free-text input, or a drop-down with a fixed list of options. */
  datatype FieldKind = FreeText | Choice(options: seq<string>)

  datatype FieldDef = FieldDef(key: string, kind: FieldKind)

  /** An engine: its id, its ordered form fields and its prompt template. */
  datatype Template = Template(id: string, fields: seq<FieldDef>, prompt: seq<Segment>)

  /** The value a missing key reads as: JavaScript gives `undefined`, which `||` treats like "". */
  function Value(f: Fields, key: string): string {
    if key in f then f[key] else ""
  }

  /** `f.key || default` for a string-valued property: "" and a missing key both fall back. */
  function Fill(f: Fields, key: string, default: string): string {
    if Value(f, key) != "" then Value(f, key) else default
  }

  function Emit(s: Segment, f: Fields): string {
    match s
    case Lit(t) => t
    case Slot(k, d) => Fill(f, k, d)
  }

  /** The string the template literal evaluates to for the values `f`. */
  function Compile(prompt: seq<Segment>, f: Fields): string {
    if prompt == [] then "" else Emit(prompt[0], f) + Compile(prompt[1..], f)
  }

  /** The keys a template reads. */
  function SlotKeys(prompt: seq<Segment>): (keys: set<string>)
    ensures forall i :: 0 <= i < |prompt| && prompt[i].Slot? ==> prompt[i].key in keys
    ensures forall k :: k in keys ==> exists i :: 0 <= i < |prompt| && prompt[i].Slot? && prompt[i].key == k
  {
    if prompt == [] then {}
    else
      var rest := SlotKeys(prompt[1..]);
      assert forall k :: k in rest ==> exists i :: 1 <= i < |prompt| && prompt[i].Slot? && prompt[i].key == k by {
        forall k | k in rest
          ensures exists i :: 1 <= i < |prompt| && prompt[i].Slot? && prompt[i].key == k
        {
          var j :| 0 <= j < |prompt[1..]| && prompt[1..][j].Slot? && prompt[1..][j].key == k;
          assert prompt[j + 1] == prompt[1..][j];
        }
      }
      (if prompt[0].Slot? then {prompt[0].key} else {}) + rest
  }

  /** The defaults of the slots for `key`, in template order. */
  function SlotDefaults(prompt: seq<Segment>, key: string): seq<string> {
    if prompt == [] then []
    else (if prompt[0].Slot? && prompt[0].key == key then [prompt[0].default] else [])
         + SlotDefaults(prompt[1..], key)
  }

  /** The text of the template with every slot at its default: literals and defaults only. */
  function Skeleton(prompt: seq<Segment>): string {
    if prompt == [] then []
    else (match prompt[0] case Lit(t) => t case Slot(_, d) => d) + Skeleton(prompt[1..])
  }

  /** Every slot for `key` turned into the literal `v`. */
  function Bind(prompt: seq<Segment>, key: string, v: string): (r: seq<Segment>)
    ensures |r| == |prompt|
    ensures key !in SlotKeys(r)
  {
    if prompt == [] then []
    else [if prompt[0].Slot? && prompt[0].key == key then Lit(v) else prompt[0]] + Bind(prompt[1..], key, v)
  }

  /** The keys declared by a template's form. */
  function FieldKeys(fields: seq<FieldDef>): (keys: set<string>)
    ensures forall i :: 0 <= i < |fields| ==> fields[i].key in keys
    ensures forall k :: k in keys ==> exists i :: 0 <= i < |fields| && fields[i].key == k
  {
    set i | 0 <= i < |fields| :: fields[i].key
  }

  /** Two form states that read the same for every key in `keys`. */
  ghost predicate AgreeOn(f: Fields, g: Fields, keys: set<string>) {
    forall k :: k in keys ==> Value(f, k) == Value(g, k)
  }

  /** `s` occurs in `text` starting at index `i`. */
  ghost predicate OccursAt(text: string, s: string, i: int) {
    0 <= i <= |text| - |s| && text[i..i + |s|] == s
  }

  /** `s` occurs in `text` as a contiguous piece. */
  ghost predicate Contains(text: string, s: string) {
    exists i :: OccursAt(text, s, i)
  }

  /** The text before the first line break. */
  function FirstLine(s: string): (line: string)
    ensures |line| <= |s| && line == s[..|line|]
    ensures '\n' !in line
  {
    if s == [] || s[0] == '\n' then [] else [s[0]] + FirstLine(s[1..])
  }

  // ---------------------------------------------------------------------------
  // Properties of the compiler

  /** Compiling a concatenation of templates concatenates their texts. */
  lemma {:induction false} CompileAppend(p: seq<Segment>, q: seq<Segment>, f: Fields)
    ensures Compile(p + q, f) == Compile(p, f) + Compile(q, f)
  {
    if p == [] {
      assert p + q == q;
    } else {
      assert (p + q)[1..] == p[1..] + q;
      CompileAppend(p[1..], q, f);
    }
  }

  /** The defaults for a key of a concatenation are those of its parts, in order. */
  lemma {:induction false} SlotDefaultsAppend(p: seq<Segment>, q: seq<Segment>, key: string)
    ensures SlotDefaults(p + q, key) == SlotDefaults(p, key) + SlotDefaults(q, key)
  {
    if p == [] {
      assert p + q == q;
    } else {
      assert (p + q)[1..] == p[1..] + q;
      SlotDefaultsAppend(p[1..], q, key);
    }
  }

  /** A key no slot reads has no defaults. */
  lemma {:induction false} SlotDefaultsUnread(p: seq<Segment>, key: string)
    requires forall i :: 0 <= i < |p| ==> !(p[i].Slot? && p[i].key == key)
    ensures SlotDefaults(p, key) == []
  {
    if p != [] {
      assert forall i :: 0 <= i < |p[1..]| ==> p[1..][i] == p[i + 1];
      SlotDefaultsUnread(p[1..], key);
    }
  }

  /**
   * A template made of three stretches that do not read `key` and two slots that do
   * has the defaults of those two slots, in order.
   */
  lemma {:induction false} SlotDefaultsTwo(p: seq<Segment>, a: seq<Segment>, s: Segment, b: seq<Segment>, t: Segment, c: seq<Segment>, key: string)
    requires p == a + [s] + b + [t] + c
    requires s.Slot? && s.key == key && t.Slot? && t.key == key
    requires SlotDefaults(a, key) == SlotDefaults(b, key) == SlotDefaults(c, key) == []
    ensures SlotDefaults(p, key) == [s.default, t.default]
  {
    assert SlotDefaults([s], key) == [s.default] && SlotDefaults([t], key) == [t.default] by {
      assert [s][1..] == [] && [t][1..] == [];
    }
    var x1 := a + [s];
    assert SlotDefaults(x1, key) == [s.default] by { SlotDefaultsAppend(a, [s], key); }
    var x2 := x1 + b;
    assert SlotDefaults(x2, key) == [s.default] by { SlotDefaultsAppend(x1, b, key); }
    var x3 := x2 + [t];
    assert SlotDefaults(x3, key) == [s.default, t.default] by { SlotDefaultsAppend(x2, [t], key); }
    SlotDefaultsAppend(x3, c, key);
  }

  /** Compiling splits around any one segment. */
  lemma {:induction false} CompileAround(p: seq<Segment>, i: nat, f: Fields)
    requires i < |p|
    ensures Compile(p, f) == Compile(p[..i], f) + Emit(p[i], f) + Compile(p[i + 1..], f)
  {
    assert p == p[..i] + [p[i]] + p[i + 1..];
    CompileAppend(p[..i] + [p[i]], p[i + 1..], f);
    CompileAppend(p[..i], [p[i]], f);
  }

  /** The text of the first four segments, one segment at a time. */
  lemma {:induction false} CompileHead4(p: seq<Segment>, f: Fields)
    requires 4 <= |p|
    ensures Compile(p[..4], f) == Emit(p[0], f) + Emit(p[1], f) + Emit(p[2], f) + Emit(p[3], f)
  {
    assert Compile(p[..0], f) == "";
    CompilePrefix(p, 0, f);
    CompilePrefix(p, 1, f);
    CompilePrefix(p, 2, f);
    CompilePrefix(p, 3, f);
  }

  /** Compiling a prefix one segment longer appends that segment's text. */
  lemma {:induction false} CompilePrefix(p: seq<Segment>, i: nat, f: Fields)
    requires i < |p|
    ensures Compile(p[..i + 1], f) == Compile(p[..i], f) + Emit(p[i], f)
  {
    assert p[..i + 1] == p[..i] + [p[i]];
    CompileAppend(p[..i], [p[i]], f);
  }

  /**
   * A slot yields the field's value verbatim when it is a non-empty string, and the
   * slot's own default when the key is missing or holds "".
   */
  lemma {:induction false} CompileSlot(pre: seq<Segment>, key: string, default: string, post: seq<Segment>, f: Fields)
    ensures key in f && f[key] != "" ==>
      Compile(pre + [Slot(key, default)] + post, f) == Compile(pre, f) + f[key] + Compile(post, f)
    ensures key !in f || f[key] == "" ==>
      Compile(pre + [Slot(key, default)] + post, f) == Compile(pre, f) + default + Compile(post, f)
  {
    var slot := Slot(key, default);
    var whole, head, filled := Compile(pre + [slot] + post, f), Compile(pre + [slot], f), Fill(f, key, default);
    assert whole == head + Compile(post, f) by { CompileAppend(pre + [slot], post, f); }
    assert head == Compile(pre, f) + Compile([slot], f) by { CompileAppend(pre, [slot], f); }
    assert Compile([slot], f) == filled by {
      assert Compile([slot], f) == Emit(slot, f) + Compile([], f);
    }
  }

  /** A slot whose key is missing or holds "" puts its default into the compiled text. */
  lemma {:induction false} DefaultShown(p: seq<Segment>, i: nat, f: Fields)
    requires i < |p| && p[i].Slot? && Value(f, p[i].key) == ""
    ensures Contains(Compile(p, f), p[i].default)
  {
    CompileAround(p, i, f);
    ContainsAt(Compile(p[..i], f), p[i].default, Compile(p[i + 1..], f));
  }

  /** A template depends only on the keys its slots read. */
  lemma {:induction false} CompileReadsOnlySlotKeys(p: seq<Segment>, f: Fields, g: Fields)
    requires AgreeOn(f, g, SlotKeys(p))
    ensures Compile(p, f) == Compile(p, g)
  {
    if p != [] {
      assert SlotKeys(p[1..]) <= SlotKeys(p);
      CompileReadsOnlySlotKeys(p[1..], f, g);
      if p[0].Slot? {
        assert p[0].key in SlotKeys(p);
      }
    }
  }

  /** Setting a key to "" compiles exactly like removing it. */
  lemma EmptyValueIsMissing(p: seq<Segment>, f: Fields, key: string)
    ensures Compile(p, f[key := ""]) == Compile(p, f - {key})
  {
    CompileReadsOnlySlotKeys(p, f[key := ""], f - {key});
  }

  /** Changing a key the template does not read leaves the compiled text unchanged. */
  lemma CompileIgnoresOtherKeys(p: seq<Segment>, f: Fields, key: string, v: string)
    requires key !in SlotKeys(p)
    ensures Compile(p, f[key := v]) == Compile(p, f)
  {
    CompileReadsOnlySlotKeys(p, f[key := v], f);
  }

  /**
   * A non-empty value fills every slot of its key, whatever default each slot has:
   * compiling is the same as compiling the template with those slots replaced by the value.
   */
  lemma {:induction false} CompileBind(p: seq<Segment>, f: Fields, key: string)
    requires key in f && f[key] != ""
    ensures Compile(p, f) == Compile(Bind(p, key, f[key]), f)
  {
    if p != [] {
      CompileBind(p[1..], f, key);
    }
  }

  /** With no values at all, the compiled text is made of literals and slot defaults only. */
  lemma {:induction false} CompileEmptyIsSkeleton(p: seq<Segment>)
    ensures Compile(p, map[]) == Skeleton(p)
  {
    if p != [] {
      CompileEmptyIsSkeleton(p[1..]);
    }
  }

  /** A piece at a known offset of a concatenation is contained in it. */
  lemma ContainsAt(a: string, s: string, b: string)
    ensures Contains(a + s + b, s)
  {
    assert OccursAt(a + s + b, s, |a|);
  }

  /** Every character of a contained piece occurs in the text. */
  lemma ContainsChars(text: string, s: string, c: char)
    requires Contains(text, s) && c in s
    ensures c in text
  {
    var i :| OccursAt(text, s, i);
    var j :| 0 <= j < |s| && s[j] == c;
    assert text[i + j] == text[i..i + |s|][j];
  }

  /** A line followed by a line break is the first line. */
  lemma {:induction false} FirstLineBeforeBreak(a: string, b: string)
    requires '\n' !in a
    ensures FirstLine(a + "\n" + b) == a
  {
    if a != [] {
      assert (a + "\n" + b)[1..] == a[1..] + "\n" + b;
      FirstLineBeforeBreak(a[1..], b);
    }
  }

  /** A character that no segment emits does not occur in the compiled text. */
  lemma {:induction false} CompileLacks(p: seq<Segment>, f: Fields, c: char)
    requires forall i :: 0 <= i < |p| ==> c !in Emit(p[i], f)
    ensures c !in Compile(p, f)
  {
    if p != [] {
      CompileLacks(p[1..], f, c);
    }
  }

  /**
   * When segment `i` is a literal ending in the first line break, the first line of the
   * compiled text is everything before it plus that literal without its break.
   */
  lemma {:induction false} FirstLineAtBreak(p: seq<Segment>, i: nat, f: Fields, c: string)
    requires i < |p| && p[i] == Lit(c + "\n")
    requires '\n' !in c && '\n' !in Compile(p[..i], f)
    ensures FirstLine(Compile(p, f)) == Compile(p[..i], f) + c
  {
    var line, rest := Compile(p[..i], f) + c, Compile(p[i + 1..], f);
    assert Compile(p, f) == line + "\n" + rest by {
      CompileAround(p, i, f);
    }
    assert '\n' !in line;
    FirstLineBeforeBreak(line, rest);
  }
}

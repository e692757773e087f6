/** Names of task configuration entries, and the names that are looked up for a task. */
module TaskConfiguration {
  import opened Outcomes
  import opened Strings

  datatype TaskType = Worker | Server | Internal | Workflow | Signing | Wait

  function TaskTypeName(t: TaskType): string {
    match t
    case Worker => "Worker"
    case Server => "Server"
    case Internal => "Internal"
    case Workflow => "Workflow"
    case Signing => "Signing"
    case Wait => "Wait"
  }

  /** The fields of an entry that say what it applies to. */
  datatype Entry = Entry(
    taskType: Option<TaskType>,
    taskName: Option<string>,
    subject: Option<string>,
    context: Option<string>,
    template: Option<string>)

  // ----- which entries are valid -----

  predicate NoColons(value: Option<string>) {
    value.Some? ==> ':' !in value.value
  }

  /** Python's truth of an optional string. */
  predicate Present(value: Option<string>) {
    value.Some? && value.value != ""
  }

  function OrEmpty(value: Option<string>): string {
    if value.Some? then value.value else ""
  }

  predicate Valid(e: Entry) {
    && NoColons(e.taskName) && NoColons(e.subject) && NoColons(e.template)
    && if Present(e.template)
       then e.taskType.None? && !Present(e.taskName) && !Present(e.subject) && !Present(e.context)
       else e.taskType.Some? && Present(e.taskName)
  }

  // ----- UTF-8 (RFC 3629, section 3) -----

  type Byte = b: int | 0 <= b < 256

  function EncodeChar(c: char): (bytes: seq<Byte>)
    ensures 1 <= |bytes| <= 4
  {
    var n := c as int;
    if n < 0x80 then [n]
    else if n < 0x800 then [0xC0 + n / 0x40, 0x80 + n % 0x40]
    else if n < 0x1_0000 then [0xE0 + n / 0x1000, 0x80 + n / 0x40 % 0x40, 0x80 + n % 0x40]
    else [0xF0 + n / 0x4_0000, 0x80 + n / 0x1000 % 0x40, 0x80 + n / 0x40 % 0x40, 0x80 + n % 0x40]
  }

  function Encode(s: string): seq<Byte> {
    if s == "" then [] else EncodeChar(s[0]) + Encode(s[1..])
  }

  /** The first byte says how long a character is. */
  function CharLength(first: Byte): int {
    if first < 0x80 then 1 else if first < 0xE0 then 2 else if first < 0xF0 then 3 else 4
  }

  lemma EncodedLength(c: char)
    ensures CharLength(EncodeChar(c)[0]) == |EncodeChar(c)|
  {
  }

  lemma {:induction false} SixBitsTwice(n: int)
    requires n >= 0
    ensures n == n / 0x1000 * 0x1000 + n / 0x40 % 0x40 * 0x40 + n % 0x40
  {
    assert n / 0x40 / 0x40 == n / 0x1000;
  }

  lemma {:induction false} SixBitsThrice(n: int)
    requires n >= 0
    ensures n == n / 0x4_0000 * 0x4_0000 + n / 0x1000 % 0x40 * 0x1000 + n / 0x40 % 0x40 * 0x40 + n % 0x40
  {
    SixBitsTwice(n);
    assert n / 0x1000 / 0x40 == n / 0x4_0000;
  }

  /** The code point that these bytes stand for. */
  function CodePoint(bytes: seq<Byte>): int
    requires 1 <= |bytes| <= 4
  {
    if |bytes| == 1 then bytes[0]
    else if |bytes| == 2 then (bytes[0] as int - 0xC0) * 0x40 + (bytes[1] as int - 0x80)
    else if |bytes| == 3
      then (bytes[0] as int - 0xE0) * 0x1000 + (bytes[1] as int - 0x80) * 0x40 + (bytes[2] as int - 0x80)
    else (bytes[0] as int - 0xF0) * 0x4_0000 + (bytes[1] as int - 0x80) * 0x1000 + (bytes[2] as int - 0x80) * 0x40 +
         (bytes[3] as int - 0x80)
  }

  lemma {:induction false} CharOfBytes(c: char)
    ensures CodePoint(EncodeChar(c)) == c as int
  {
    var n := c as int;
    if 0x800 <= n < 0x1_0000 {
      SixBitsTwice(n);
    } else if 0x1_0000 <= n {
      SixBitsThrice(n);
    }
  }

  lemma {:induction false} EncodeInjective(s: string, t: string)
    requires Encode(s) == Encode(t)
    ensures s == t
  {
    if s != "" && t != "" {
      var x, y := EncodeChar(s[0]), EncodeChar(t[0]);
      EncodedLength(s[0]);
      EncodedLength(t[0]);
      assert Encode(s)[0] == x[0] && Encode(t)[0] == y[0];
      assert x == Encode(s)[..|x|] && y == Encode(t)[..|y|];
      CharOfBytes(s[0]);
      CharOfBytes(t[0]);
      assert Encode(s[1..]) == Encode(s)[|x|..] && Encode(t[1..]) == Encode(t)[|y|..];
      EncodeInjective(s[1..], t[1..]);
      assert s == [s[0]] + s[1..] && t == [t[0]] + t[1..];
    }
  }

  // ----- percent-encoding (RFC 3986, sections 2.1 and 2.3) -----

  /** Unreserved characters and the slash stand for themselves. */
  predicate IsSafe(b: Byte) {
    var c := b as char;
    'A' <= c <= 'Z' || 'a' <= c <= 'z' || '0' <= c <= '9' || c == '_' || c == '.' || c == '-' || c == '~' || c == '/'
  }

  function HexDigit(n: int): char
    requires 0 <= n < 16
  {
    if n < 10 then '0' + n as char else 'A' + (n - 10) as char
  }

  function QuoteByte(b: Byte): string {
    if IsSafe(b) then [b as char] else ['%', HexDigit(b / 16), HexDigit(b % 16)]
  }

  function QuoteBytes(bytes: seq<Byte>): string {
    if bytes == [] then "" else QuoteByte(bytes[0]) + QuoteBytes(bytes[1..])
  }

  function Quote(s: string): string {
    QuoteBytes(Encode(s))
  }

  function HexValue(c: char): int {
    if c <= '9' then c as int - '0' as int else c as int - 'A' as int + 10
  }

  lemma {:induction false} QuotedByte(a: Byte, b: Byte)
    requires QuoteByte(a) == QuoteByte(b)
    ensures a == b
  {
    var x, y := QuoteByte(a), QuoteByte(b);
    assert x[0] == y[0];
    if |x| == 3 {
      assert HexValue(x[1]) == a / 16 && HexValue(x[2]) == a % 16;
      assert HexValue(y[1]) == b / 16 && HexValue(y[2]) == b % 16;
    }
  }

  lemma {:induction false} QuoteBytesInjective(s: seq<Byte>, t: seq<Byte>)
    requires QuoteBytes(s) == QuoteBytes(t)
    ensures s == t
  {
    if s != [] && t != [] {
      var x, y := QuoteByte(s[0]), QuoteByte(t[0]);
      assert QuoteBytes(s)[0] == x[0] && QuoteBytes(t)[0] == y[0];
      assert x == QuoteBytes(s)[..|x|] && y == QuoteBytes(t)[..|y|];
      QuotedByte(s[0], t[0]);
      assert QuoteBytes(s[1..]) == QuoteBytes(s)[|x|..] && QuoteBytes(t[1..]) == QuoteBytes(t)[|y|..];
      QuoteBytesInjective(s[1..], t[1..]);
      assert s == [s[0]] + s[1..] && t == [t[0]] + t[1..];
    }
  }

  /** Percent-encoding loses nothing. */
  lemma {:induction false} QuoteInjective(s: string, t: string)
    requires Quote(s) == Quote(t)
    ensures s == t
  {
    QuoteBytesInjective(Encode(s), Encode(t));
    EncodeInjective(s, t);
  }

  lemma {:induction false} QuotedHasNoColon(bytes: seq<Byte>)
    ensures ':' !in QuoteBytes(bytes)
  {
    if bytes != [] {
      QuotedHasNoColon(bytes[1..]);
    }
  }

  // ----- names -----

  function QuotedContext(context: Option<string>): string {
    if Present(context) then Quote(context.value) else ""
  }

  function Name(e: Entry): string
    requires Valid(e)
  {
    if e.template.Some? then "template:" + e.template.value
    else TaskTypeName(e.taskType.value) + ":" + e.taskName.value + ":" + OrEmpty(e.subject) + ":" +
         QuotedContext(e.context)
  }

  /** The entry is for this task: what it leaves open matches anything. */
  predicate AppliesTo(e: Entry, taskType: string, taskName: string, subject: Option<string>, context: Option<string>) {
    && e.template.None?
    && e.taskType.Some? && TaskTypeName(e.taskType.value) == taskType
    && e.taskName == Some(taskName)
    && (Present(e.subject) ==> e.subject == subject)
    && (Present(e.context) ==> e.context == context)
  }

  function Colons(s: string): nat {
    if s == "" then 0 else (if s[0] == ':' then 1 else 0) + Colons(s[1..])
  }

  lemma {:induction false} ColonsAdd(s: string, t: string)
    ensures Colons(s + t) == Colons(s) + Colons(t)
  {
    if s == "" {
      assert s + t == t;
    } else {
      assert (s + t)[1..] == s[1..] + t;
      ColonsAdd(s[1..], t);
    }
  }

  lemma {:induction false} NoColonsCounted(s: string)
    ensures Colons(s) == 0 <==> ':' !in s
  {
    if s != "" {
      NoColonsCounted(s[1..]);
      assert s == [s[0]] + s[1..];
    }
  }

  /** Four parts with colons in between. */
  function FourParts(a: string, b: string, c: string, d: string): string {
    a + ":" + b + ":" + c + ":" + d
  }

  lemma {:induction false} FourPartsColons(a: string, b: string, c: string, d: string)
    ensures Colons(FourParts(a, b, c, d)) == Colons(a) + Colons(b) + Colons(c) + Colons(d) + 3
  {
    ColonsAdd(a, ":");
    ColonsAdd(a + ":", b);
    ColonsAdd(a + ":" + b, ":");
    ColonsAdd(a + ":" + b + ":", c);
    ColonsAdd(a + ":" + b + ":" + c, ":");
    ColonsAdd(a + ":" + b + ":" + c + ":", d);
  }

  lemma {:induction false} FourPartsJoined(a: string, b: string, c: string, d: string)
    ensures FourParts(a, b, c, d) == Join([a, b, c, d], ":")
  {
    assert [a, b, c, d][1..] == [b, c, d] && [b, c, d][1..] == [c, d] && [c, d][1..] == [d];
    assert Join([c, d], ":") == c + ":" + d;
    assert Join([b, c, d], ":") == b + ":" + (c + ":" + d);
  }

  predicate ColonFree(s: string) {
    ':' !in s
  }

  /** A name with three colons in all has the same parts as any other way to write it, even if that other
      way may use parts with colons. */
  lemma {:induction false} FourPartsUnique(a: string, b: string, c: string, d: string, a': string, b': string,
                                           c': string, d': string)
    requires ColonFree(a) && ColonFree(b) && ColonFree(c) && ColonFree(d)
    requires FourParts(a, b, c, d) == FourParts(a', b', c', d')
    ensures a == a' && b == b' && c == c' && d == d'
  {
    FourPartsColons(a, b, c, d);
    FourPartsColons(a', b', c', d');
    NoColonsCounted(a);
    NoColonsCounted(b);
    NoColonsCounted(c);
    NoColonsCounted(d);
    NoColonsCounted(a');
    NoColonsCounted(b');
    NoColonsCounted(c');
    NoColonsCounted(d');
    FourPartsJoined(a, b, c, d);
    FourPartsJoined(a', b', c', d');
    SplitOfJoin([a, b, c, d], ':');
    SplitOfJoin([a', b', c', d'], ':');
    var words, words' := [a, b, c, d], [a', b', c', d'];
    assert words == words';
    assert words[0] == words'[0] && words[1] == words'[1] && words[2] == words'[2] && words[3] == words'[3];
  }

  lemma {:induction false} TypeNames(t: TaskType, u: TaskType)
    ensures ColonFree(TaskTypeName(t))
    ensures TaskTypeName(t) == TaskTypeName(u) ==> t == u
  {
    assert TaskTypeName(t)[1] == TaskTypeName(u)[1] || t != u;
    assert TaskTypeName(t)[2] == TaskTypeName(u)[2] || t != u;
    assert TaskTypeName(t)[0] == TaskTypeName(u)[0] || t != u;
  }

  lemma {:induction false} PartsColonFree(e: Entry)
    requires Valid(e) && e.template.None?
    ensures ColonFree(TaskTypeName(e.taskType.value)) && ColonFree(e.taskName.value)
    ensures ColonFree(OrEmpty(e.subject)) && ColonFree(QuotedContext(e.context))
  {
    TypeNames(e.taskType.value, e.taskType.value);
    if Present(e.context) {
      QuotedHasNoColon(Encode(e.context.value));
    }
  }

  lemma {:induction false} TemplateColons(e: Entry)
    requires Valid(e) && e.template.Some?
    ensures Colons(Name(e)) == 1
  {
    ColonsAdd("template:", e.template.value);
    NoColonsCounted(e.template.value);
    ColonsAdd("template", ":");
    NoColonsCounted("template");
    assert "template" + ":" == "template:";
  }

  lemma {:induction false} QuoteEmpty(s: string)
    ensures Quote(s) == "" <==> s == ""
  {
    if Quote(s) == "" {
      QuoteInjective(s, "");
    }
  }

  /** An entry is called `t:n:s:c` exactly when these are its parts. */
  lemma {:induction false} NamedByParts(e: Entry, t: string, n: string, s: string, c: string)
    requires Valid(e)
    ensures Name(e) == FourParts(t, n, s, c) <==>
      e.template.None? && TaskTypeName(e.taskType.value) == t && e.taskName.value == n
      && OrEmpty(e.subject) == s && QuotedContext(e.context) == c
  {
    if e.template.Some? {
      TemplateColons(e);
      FourPartsColons(t, n, s, c);
    } else {
      PartsColonFree(e);
      if Name(e) == FourParts(t, n, s, c) {
        FourPartsUnique(TaskTypeName(e.taskType.value), e.taskName.value, OrEmpty(e.subject), QuotedContext(e.context),
          t, n, s, c);
      }
    }
  }

  lemma {:induction false} SameContext(a: Option<string>, b: Option<string>)
    ensures QuotedContext(a) == QuotedContext(b) <==> OrEmpty(a) == OrEmpty(b)
  {
    QuoteEmpty(OrEmpty(a));
    QuoteEmpty(OrEmpty(b));
    if Present(a) && Present(b) && QuotedContext(a) == QuotedContext(b) {
      QuoteInjective(a.value, b.value);
    }
  }

  /** The names for a task, from the most general to the most specific. */
  function LookupNames(taskType: string, taskName: string, subject: Option<string>,
                       context: Option<string>): seq<string>
  {
    var c := QuotedContext(context);
    [FourParts(taskType, taskName, "", "")]
    + (if c != "" then [FourParts(taskType, taskName, "", c)] else [])
    + (if Present(subject) then [FourParts(taskType, taskName, subject.value, "")] else [])
    + (if Present(subject) && c != "" then [FourParts(taskType, taskName, subject.value, c)] else [])
  }

  /** An entry has one of these names exactly when it applies to that task, whatever characters the arguments
      contain. */
  lemma {:induction false} LookupNamesHit(e: Entry, taskType: string, taskName: string, subject: Option<string>,
                                          context: Option<string>)
    requires Valid(e)
    ensures Name(e) in LookupNames(taskType, taskName, subject, context) <==>
      AppliesTo(e, taskType, taskName, subject, context)
  {
    var s, c := OrEmpty(subject), QuotedContext(context);
    NamedByParts(e, taskType, taskName, "", "");
    NamedByParts(e, taskType, taskName, "", c);
    NamedByParts(e, taskType, taskName, s, "");
    NamedByParts(e, taskType, taskName, s, c);
    SameContext(e.context, context);
    SameContext(e.context, None);
    if e.context.Some? && context.Some? {
      assert OrEmpty(e.context) == OrEmpty(context) <==> e.context == context;
    }
  }

  /** How much an entry asks of a task: a subject weighs more than a context. */
  function Specificity(e: Entry): nat {
    (if Present(e.subject) then 2 else 0) + (if Present(e.context) then 1 else 0)
  }

  lemma {:induction false} NamedSpecificity(e: Entry, t: string, n: string, s: string, c: string)
    requires Valid(e) && Name(e) == FourParts(t, n, s, c)
    ensures Specificity(e) == (if s == "" then 0 else 2) + (if c == "" then 0 else 1)
  {
    NamedByParts(e, t, n, s, c);
    QuoteEmpty(OrEmpty(e.context));
  }

  /** The subject and the context in each name. */
  function Levels(s: string, c: string): seq<(string, string)> {
    [("", "")] + (if c != "" then [("", c)] else []) + (if s != "" then [(s, "")] else [])
    + (if s != "" && c != "" then [(s, c)] else [])
  }

  lemma NamesByLevel(taskType: string, taskName: string, subject: Option<string>, context: Option<string>)
    ensures
      var names, levels := LookupNames(taskType, taskName, subject, context),
                           Levels(OrEmpty(subject), QuotedContext(context));
      |names| == |levels| &&
      forall k :: 0 <= k < |names| ==> names[k] == FourParts(taskType, taskName, levels[k].0, levels[k].1)
  {
    hide FourParts, QuotedContext;
  }

  /** Of two entries for a task, the less specific one is looked up first. */
  lemma {:induction false} GeneralFirst(e: Entry, f: Entry, taskType: string, taskName: string,
                                        subject: Option<string>, context: Option<string>, i: nat, j: nat)
    requires Valid(e) && Valid(f) && i < j < |LookupNames(taskType, taskName, subject, context)|
    requires LookupNames(taskType, taskName, subject, context)[i] == Name(e)
    requires LookupNames(taskType, taskName, subject, context)[j] == Name(f)
    ensures Specificity(e) < Specificity(f)
  {
    var levels := Levels(OrEmpty(subject), QuotedContext(context));
    NamesByLevel(taskType, taskName, subject, context);
    hide LookupNames, FourParts, Name, Valid, QuotedContext, Specificity;
    NamedSpecificity(e, taskType, taskName, levels[i].0, levels[i].1);
    NamedSpecificity(f, taskType, taskName, levels[j].0, levels[j].1);
  }

  /** Two entries have the same name exactly when they are for the same template, or for the same task, subject
      and context. */
  lemma {:induction false} NamesIdentify(e: Entry, f: Entry)
    requires Valid(e) && Valid(f)
    ensures Name(e) == Name(f) <==>
      e.template == f.template && (e.template.None? ==>
        e.taskType == f.taskType && e.taskName == f.taskName
        && OrEmpty(e.subject) == OrEmpty(f.subject) && OrEmpty(e.context) == OrEmpty(f.context))
  {
    if f.template.None? {
      NamedByParts(e, TaskTypeName(f.taskType.value), f.taskName.value, OrEmpty(f.subject), QuotedContext(f.context));
      SameContext(e.context, f.context);
      if e.template.None? {
        TypeNames(e.taskType.value, f.taskType.value);
      }
    } else if e.template.None? {
      TemplateColons(f);
      FourPartsColons(TaskTypeName(e.taskType.value), e.taskName.value, OrEmpty(e.subject), QuotedContext(e.context));
    } else if Name(e) == Name(f) {
      assert Name(e)[9..] == e.template.value && Name(f)[9..] == f.template.value;
    }
  }

  method GetLookupNames(taskType: string, taskName: string, subject: Option<string>, context: Option<string>)
    returns (names: seq<string>)
    ensures names == LookupNames(taskType, taskName, subject, context)
    ensures forall e: Entry :: Valid(e) ==> (Name(e) in names <==> AppliesTo(e, taskType, taskName, subject, context))
  {
    names := [];
    var contextEncoded := QuotedContext(context);
    names := names + [taskType + ":" + taskName + "::"];
    if contextEncoded != "" {
      names := names + [taskType + ":" + taskName + "::" + contextEncoded];
    }
    if Present(subject) {
      names := names + [taskType + ":" + taskName + ":" + subject.value + ":"];
    }
    if Present(subject) && contextEncoded != "" {
      names := names + [taskType + ":" + taskName + ":" + subject.value + ":" + contextEncoded];
    }
    EmptyParts(taskType, taskName, contextEncoded, OrEmpty(subject));
    forall e: Entry | Valid(e)
      ensures Name(e) in names <==> AppliesTo(e, taskType, taskName, subject, context)
    {
      LookupNamesHit(e, taskType, taskName, subject, context);
    }
  }

  lemma {:induction false} EmptyParts(t: string, n: string, c: string, s: string)
    ensures t + ":" + n + "::" == FourParts(t, n, "", "")
    ensures t + ":" + n + "::" + c == FourParts(t, n, "", c)
    ensures t + ":" + n + ":" + s + ":" == FourParts(t, n, s, "")
  {
    assert t + ":" + n + "::" == t + ":" + n + ":" + ":";
  }
}

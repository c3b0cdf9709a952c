/** The JSON texts of the continuity guard: one object whose members are
    strings (infra/docker/qualification_network.py). */
module FlatJson {
  import opened LlmTypes

  /** No character that JSON escapes, and no closing brace. */
  predicate PlainChar(c: char) {
    ' ' <= c <= '~' && c != '"' && c != '\\' && c != '}'
  }

  predicate AllPlain(s: string) {
    forall c <- s :: PlainChar(c)
  }

  type Plain = s: string | AllPlain(s)

  type Field = (Plain, Plain)

  // ----------------------------------------------------------------- writing

  function Quoted(p: Plain): string {
    ['"'] + p + ['"']
  }

  function Member(f: Field, colon: string): string {
    Quoted(f.0) + colon + Quoted(f.1)
  }

  /** The members after the opening brace, with the closing one. */
  function Members(fields: seq<Field>, comma: string, colon: string): string
    requires fields != []
  {
    Member(fields[0], colon) + if |fields| == 1 then ['}'] else comma + Members(fields[1..], comma, colon)
  }

  function Encode(fields: seq<Field>, comma: string, colon: string): string
    requires fields != []
  {
    ['{'] + Members(fields, comma, colon)
  }

  // ----------------------------------------------------------------- reading

  function SkipBlanks(s: string): (r: string)
    ensures |r| <= |s|
  {
    if s != [] && s[0] in " \t\n\r" then SkipBlanks(s[1..]) else s
  }

  function Close(s: string): (n: nat)
    ensures n <= |s| && (forall i :: 0 <= i < n ==> s[i] != '"') && (n < |s| ==> s[n] == '"')
  {
    if s == [] || s[0] == '"' then 0 else 1 + Close(s[1..])
  }

  /** A quoted string without escapes at the head of `s`. */
  function ReadString(s: string): (r: Option<(string, string)>)
    ensures r.Some? ==> |r.value.1| < |s|
  {
    if s == [] || s[0] != '"' then None
    else
      var n := Close(s[1..]);
      if n == |s| - 1 || exists i :: 0 <= i < n && (s[1..][i] < ' ' || s[1..][i] == '\\') then None
      else Some((s[1..][..n], s[1..][n + 1..]))
  }

  /** A name, a colon and a value. */
  function ReadMember(s: string): (r: Option<(string, string, string)>)
    ensures r.Some? ==> |r.value.2| < |s|
  {
    var name := ReadString(SkipBlanks(s));
    if name.None? then None
    else
      var rest := SkipBlanks(name.value.1);
      if rest == [] || rest[0] != ':' then None
      else
        var value := ReadString(SkipBlanks(rest[1..]));
        if value.None? then None
        else Some((name.value.0, value.value.0, SkipBlanks(value.value.1)))
  }

  /** Members up to the closing brace; a repeated name is refused. */
  function ReadMembers(s: string, seen: map<string, string>): Option<(map<string, string>, string)>
    decreases |s|
  {
    var m := ReadMember(s);
    if m.None? || m.value.0 in seen || m.value.2 == [] then None
    else
      var now := seen[m.value.0 := m.value.1];
      if m.value.2[0] == '}' then Some((now, m.value.2[1..]))
      else if m.value.2[0] == ',' then ReadMembers(m.value.2[1..], now)
      else None
  }

  function Decode(s: string): Option<map<string, string>> {
    var t := SkipBlanks(s);
    if t == [] || t[0] != '{' then None
    else
      var inside := SkipBlanks(t[1..]);
      var r := if inside != [] && inside[0] == '}' then Some((map[], inside[1..])) else ReadMembers(inside, map[]);
      if r.None? || SkipBlanks(r.value.1) != [] then None else Some(r.value.0)
  }

  // -------------------------------------------------------------- round trip

  function MapOf(fields: seq<Field>): map<string, string> {
    if fields == [] then map[] else map[fields[0].0 := fields[0].1] + MapOf(fields[1..])
  }

  predicate DistinctNames(fields: seq<Field>) {
    forall i, j :: 0 <= i < j < |fields| ==> fields[i].0 != fields[j].0
  }

  lemma {:induction false} CloseOfPlain(p: Plain, rest: string)
    ensures Close(p + ['"'] + rest) == |p|
  {
    var s := p + ['"'] + rest;
    assert s[|p|] == '"';
    assert forall i | 0 <= i < |p| :: s[i] == p[i] && p[i] in p;
  }

  lemma {:induction false} ReadQuoted(p: Plain, rest: string)
    ensures ReadString(Quoted(p) + rest) == Some((p, rest))
  {
    var s := Quoted(p) + rest;
    assert s[1..] == p + ['"'] + rest;
    CloseOfPlain(p, rest);
    assert forall i :: 0 <= i < |p| ==> s[1..][i] == p[i] && p[i] in p;
    assert s[1..][..|p|] == p;
    assert s[1..][|p| + 1..] == rest;
  }

  /** A comma or a colon, with or without a blank behind it. */
  predicate Separator(s: string, c: char) {
    s == [c] || s == [c, ' ']
  }

  lemma SkipsBlank(rest: string)
    requires rest != [] && rest[0] !in " \t\n\r"
    ensures SkipBlanks(rest) == rest && SkipBlanks([' '] + rest) == rest
  {
    var s := [' '] + rest;
    assert s[1..] == rest;
  }

  lemma {:induction false} ReadWritten(f: Field, colon: string, rest: string)
    requires Separator(colon, ':') && rest != [] && rest[0] !in " \t\n\r"
    ensures ReadMember(Member(f, colon) + rest) == Some((f.0, f.1, rest))
    ensures ReadMember([' '] + (Member(f, colon) + rest)) == Some((f.0, f.1, rest))
  {
    hide ReadString, SkipBlanks;
    var s := Member(f, colon) + rest;
    var tail := colon + (Quoted(f.1) + rest);
    assert s == Quoted(f.0) + tail;
    SkipsBlank(s);
    ReadQuoted(f.0, tail);
    SkipsBlank(tail);
    var value := Quoted(f.1) + rest;
    assert tail[1..] == if |colon| == 1 then value else [' '] + value;
    SkipsBlank(value);
    ReadQuoted(f.1, rest);
    SkipsBlank(rest);
  }

  lemma ReadOne(f: Field, colon: string, blank: string, rest: string, seen: map<string, string>)
    requires Separator(colon, ':') && (blank == [] || blank == [' '])
    requires f.0 !in seen && rest != [] && (rest[0] == '}' || rest[0] == ',')
    ensures ReadMembers(blank + (Member(f, colon) + rest), seen) ==
            if rest[0] == '}' then Some((seen[f.0 := f.1], rest[1..])) else ReadMembers(rest[1..], seen[f.0 := f.1])
  {
    hide ReadMember, Member, AllPlain, Separator;
    ReadWritten(f, colon, rest);
    assert [] + (Member(f, colon) + rest) == Member(f, colon) + rest;
  }

  lemma {:induction false} ReadAll(fields: seq<Field>, comma: string, colon: string, seen: map<string, string>,
                                   blank: string)
    requires fields != [] && DistinctNames(fields) && Separator(comma, ',') && Separator(colon, ':')
    requires forall f <- fields :: f.0 !in seen
    requires blank == [] || blank == [' ']
    ensures ReadMembers(blank + Members(fields, comma, colon), seen) == Some((seen + MapOf(fields), []))
    decreases |fields|
  {
    hide ReadMembers, Member;
    var f := fields[0];
    var rest := if |fields| == 1 then ['}'] else comma + Members(fields[1..], comma, colon);
    assert Members(fields, comma, colon) == Member(f, colon) + rest;
    assert f in fields;
    ReadOne(f, colon, blank, rest, seen);
    var now := seen[f.0 := f.1];
    if |fields| == 1 {
      assert MapOf(fields[1..]) == map[];
      assert MapOf(fields) == map[f.0 := f.1];
      assert rest[1..] == [] && now == seen + MapOf(fields);
    } else {
      var next := if |comma| == 1 then [] else [' '];
      assert rest[1..] == next + Members(fields[1..], comma, colon);
      StillUnseen(fields, seen);
      ReadAll(fields[1..], comma, colon, now, next);
      NamesDiffer(fields);
      assert now + MapOf(fields[1..]) == seen + MapOf(fields);
    }
  }

  lemma StillUnseen(fields: seq<Field>, seen: map<string, string>)
    requires fields != [] && DistinctNames(fields) && forall f <- fields :: f.0 !in seen
    ensures DistinctNames(fields[1..])
    ensures forall g <- fields[1..] :: g.0 !in seen[fields[0].0 := fields[0].1]
  {
    forall g | g in fields[1..]
      ensures g.0 !in seen[fields[0].0 := fields[0].1]
    {
      var i :| 0 <= i < |fields| - 1 && fields[1..][i] == g;
      assert fields[i + 1] == g;
    }
  }

  lemma {:induction false} NamesOf(fields: seq<Field>, name: string)
    requires name in MapOf(fields)
    ensures exists f :: f in fields && f.0 == name
  {
    if fields[0].0 == name {
      assert fields[0] in fields;
    } else {
      NamesOf(fields[1..], name);
    }
  }

  lemma NamesDiffer(fields: seq<Field>)
    requires fields != [] && DistinctNames(fields)
    ensures fields[0].0 !in MapOf(fields[1..])
  {
    if fields[0].0 in MapOf(fields[1..]) {
      NamesOf(fields[1..], fields[0].0);
    }
  }

  lemma {:induction false} MapOfAt(fields: seq<Field>, i: nat)
    requires DistinctNames(fields) && i < |fields|
    ensures fields[i].0 in MapOf(fields) && MapOf(fields)[fields[i].0] == fields[i].1
  {
    var rest := fields[1..];
    if i == 0 {
      NamesDiffer(fields);
    } else {
      assert rest[i - 1] == fields[i];
      MapOfAt(rest, i - 1);
    }
  }

  /** What the guard writes, it reads back, with either pair of separators. */
  lemma {:induction false} DecodeEncode(fields: seq<Field>, comma: string, colon: string)
    requires fields != [] && DistinctNames(fields) && Separator(comma, ',') && Separator(colon, ':')
    ensures Decode(Encode(fields, comma, colon)) == Some(MapOf(fields))
  {
    hide Members, ReadMembers, MapOf;
    var body := Members(fields, comma, colon);
    ReadAll(fields, comma, colon, map[], []);
    assert [] + body == body && map[] + MapOf(fields) == MapOf(fields);
    StartsQuoted(fields, comma, colon);
    SkipsBlank(body);
    var s := Encode(fields, comma, colon);
    SkipsBlank(s);
    assert s[1..] == body;
    hide SkipBlanks;
    EmptyStays();
  }

  lemma EmptyStays()
    ensures SkipBlanks([]) == []
  {
  }

  lemma StartsQuoted(fields: seq<Field>, comma: string, colon: string)
    requires fields != []
    ensures Members(fields, comma, colon) != [] && Members(fields, comma, colon)[0] == '"'
  {
    assert Member(fields[0], colon)[0] == '"';
    hide Member;
  }

  // ------------------------------------------------------------ torn writes

  lemma {:induction false} ReadKeepsBrace(s: string)
    requires '}' !in s
    ensures ReadMember(s).Some? ==> '}' !in ReadMember(s).value.2
  {
    SkipKeeps(s);
    var name := ReadString(SkipBlanks(s));
    if name.Some? {
      SkipKeeps(name.value.1);
      var rest := SkipBlanks(name.value.1);
      if rest != [] {
        SkipKeeps(rest[1..]);
        var value := ReadString(SkipBlanks(rest[1..]));
        if value.Some? { SkipKeeps(value.value.1); }
      }
    }
  }

  lemma {:induction false} SkipKeeps(s: string)
    requires '}' !in s
    ensures '}' !in SkipBlanks(s)
  {
    if s != [] { SkipKeeps(s[1..]); }
  }

  lemma {:induction false} NoBraceNoMembers(s: string, seen: map<string, string>)
    requires '}' !in s
    ensures ReadMembers(s, seen).None?
    decreases |s|
  {
    ReadKeepsBrace(s);
    hide ReadMember;
    var m := ReadMember(s);
    if m.Some? && m.value.2 != [] {
      NoBraceNoMembers(m.value.2[1..], seen[m.value.0 := m.value.1]);
    }
  }

  /** A text without a closing brace is no object. */
  lemma NoBraceNoObject(s: string)
    requires '}' !in s
    ensures Decode(s).None?
  {
    SkipKeeps(s);
    var t := SkipBlanks(s);
    if t != [] {
      SkipKeeps(t[1..]);
      NoBraceNoMembers(SkipBlanks(t[1..]), map[]);
    }
  }

  lemma MemberHasNoBrace(f: Field, colon: string)
    requires Separator(colon, ':')
    ensures '}' !in Member(f, colon)
  {
    assert !PlainChar('}');
    assert '}' !in Quoted(f.0) && '}' !in Quoted(f.1);
  }

  lemma {:induction false} OneBrace(fields: seq<Field>, comma: string, colon: string)
    requires fields != [] && Separator(comma, ',') && Separator(colon, ':')
    ensures var s := Members(fields, comma, colon); s != [] && s[|s| - 1] == '}' && '}' !in s[..|s| - 1]
  {
    var s, first := Members(fields, comma, colon), Member(fields[0], colon);
    MemberHasNoBrace(fields[0], colon);
    hide Member;
    if |fields| == 1 {
      assert s[..|s| - 1] == first;
    } else {
      OneBrace(fields[1..], comma, colon);
      var rest := Members(fields[1..], comma, colon);
      var front := rest[..|rest| - 1];
      assert s == first + comma + rest;
      hide Members;
      assert s[..|s| - 1] == first + comma + front;
      assert '}' !in comma;
    }
  }

  /** The brace that ends an object is its last byte, so a torn write of one
      has none and is no object. */
  lemma TornIsNoObject(fields: seq<Field>, comma: string, colon: string, kept: nat)
    requires fields != [] && Separator(comma, ',') && Separator(colon, ':')
    requires kept < |Encode(fields, comma, colon)|
    ensures '}' !in Encode(fields, comma, colon)[..kept]
    ensures Decode(Encode(fields, comma, colon)[..kept]).None?
  {
    OneBrace(fields, comma, colon);
    var s, body := Encode(fields, comma, colon), Members(fields, comma, colon);
    assert s[..|s| - 1] == ['{'] + body[..|body| - 1];
    assert forall c <- s[..kept] :: c in s[..|s| - 1];
    NoBraceNoObject(s[..kept]);
  }
}

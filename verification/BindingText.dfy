/** The lines of coordination.toml that client bindings are kept in, as the
    three regular expressions of lib/sigmond/coordination.py tell them apart. */
module BindingText {
  import opened Text

  /** A line of a `[[clients.<name>]]` block, or any other. */
  datatype Kind =
    | Client(name: string)       // [[clients.<name>]]
    | Table                      // any other line that starts with a bracket
    | Instance(value: string)    // instance = "..."
    | Radiod(value: string)      // radiod_id = "..."
    | Plain

  /** `line.rstrip('\r\n')` */
  function Body(line: string): string {
    if line != [] && (line[|line| - 1] == '\r' || line[|line| - 1] == '\n') then Body(line[..|line| - 1]) else line
  }

  /** The quoted value of `key = "value"`, in either kind of quotes. */
  function KeyValue(body: string, key: string): Option<string> {
    var t := LStrip(body);
    if !(key <= t) then None
    else
      var u := LStrip(t[|key|..]);
      if u == [] || u[0] != '=' then None else Quoted(LStrip(u[1..]))
  }

  function Quoted(s: string): Option<string> {
    if s == [] || (s[0] != '"' && s[0] != '\'') then None
    else
      var n := IndexOf(s[1..], s[0]);
      if n < |s| - 1 then Some(s[1..][..n]) else None
  }

  predicate IsAlnum(c: char) {
    ('A' <= c <= 'Z') || ('a' <= c <= 'z') || IsDigit(c)
  }

  predicate IsBareChar(c: char) {
    IsAlnum(c) || c == '_' || c == '-'
  }

  /** How many bare-key characters `s` starts with. */
  function BareLength(s: string): (n: nat)
    ensures n <= |s| && (forall i :: 0 <= i < n ==> IsBareChar(s[i])) && (n < |s| ==> !IsBareChar(s[n]))
  {
    if s == [] || !IsBareChar(s[0]) then 0 else 1 + BareLength(s[1..])
  }

  /** The closing brackets, then nothing but a comment. */
  predicate Closes(s: string) {
    var r := LStrip(s);
    "]]" <= r && var e := LStrip(r[2..]); e == [] || e[0] == '#'
  }

  /** The client a `[[clients.<name>]]` line is for. */
  function HeaderClient(body: string): Option<string> {
    var t := LStrip(body);
    if !("[[" <= t) then None
    else
      var u := LStrip(t[2..]);
      if !("clients." <= u) then None else HeaderName(u[8..])
  }

  function HeaderName(v: string): Option<string> {
    if v != [] && v[0] == '"' then
      var w := v[1..];
      var n := IndexOf(w, '"');
      if 0 < n < |w| && Closes(w[n + 1..]) then Some(w[..n]) else None
    else
      var n := BareLength(v);
      if 0 < n && Closes(v[n..]) then Some(v[..n]) else None
  }

  predicate Bracketed(body: string) {
    var t := LStrip(body);
    t != [] && t[0] == '['
  }

  function KindOf(line: string): Kind {
    var body := Body(line);
    if HeaderClient(body).Some? then Client(HeaderClient(body).value)
    else if Bracketed(body) then Table
    else if KeyValue(body, "instance").Some? then Instance(KeyValue(body, "instance").value)
    else if KeyValue(body, "radiod_id").Some? then Radiod(KeyValue(body, "radiod_id").value)
    else Plain
  }

  /** The tests made of a line exclude one another. */
  lemma KindsAreTheTests(line: string)
    ensures HeaderClient(Body(line)).Some? ==> Bracketed(Body(line))
    ensures KindOf(line).Client? <==> HeaderClient(Body(line)).Some?
    ensures KindOf(line).Client? || KindOf(line).Table? <==> Bracketed(Body(line))
    ensures KindOf(line).Instance? <==> KeyValue(Body(line), "instance").Some?
    ensures KindOf(line).Radiod? <==> KeyValue(Body(line), "radiod_id").Some?
  {
    var open, inst, rad := "[[", "instance", "radiod_id";
    var t := LStrip(Body(line));
    assert open <= t ==> t[0] == open[0];
    assert inst <= t ==> t[0] == inst[0];
    assert rad <= t ==> t[0] == rad[0];
  }

  // ---- the lines that are written ----

  function HeaderLine(client: string): string {
    "[[clients." + client + "]]\n"
  }

  function InstanceLine(instance: string): string {
    "instance  = " + ['"'] + instance + ['"'] + ['\n']
  }

  function RadiodLine(radiod: string): string {
    "radiod_id = " + ['"'] + radiod + ['"'] + ['\n']
  }

  predicate IsBareName(s: string) {
    s != [] && forall i :: 0 <= i < |s| ==> IsBareChar(s[i])
  }

  predicate IsInstanceName(s: string) {
    forall i :: 0 <= i < |s| ==> IsAlnum(s[i]) || s[i] == '=' || s[i] == '-'
  }

  predicate IsRadiodId(s: string) {
    && 1 <= |s| <= 253 && IsAlnum(s[0])
    && forall i :: 0 <= i < |s| ==> IsAlnum(s[i]) || s[i] == '.' || s[i] == '_' || s[i] == '-'
  }

  lemma LStripPlain(s: string)
    requires s == [] || !IsSpace(s[0])
    ensures LStrip(s) == s
  {
  }

  lemma LStripOne(s: string)
    requires s != [] && !IsSpace(s[0])
    ensures LStrip([' '] + s) == s && LStrip([' ', ' '] + s) == s
  {
    assert ([' '] + s)[1..] == s && ([' ', ' '] + s)[1..] == [' '] + s;
  }

  lemma BodyOf(s: string)
    requires s != [] && s[|s| - 1] != '\r' && s[|s| - 1] != '\n'
    ensures Body(s + ['\n']) == s
  {
    assert (s + ['\n'])[..|s|] == s;
  }

  lemma BodyWithNewline(line: string)
    ensures Body(line + ['\n']) == Body(line) && KindOf(line + ['\n']) == KindOf(line)
  {
    assert (line + ['\n'])[..|line|] == line;
  }

  lemma QuotedIs(value: string)
    requires '"' !in value
    ensures Quoted(['"'] + value + ['"']) == Some(value)
  {
    var s := ['"'] + value + ['"'];
    PartitionAt(value, '"', []);
    assert s[1..] == value + ['"'] + [];
  }

  lemma KeyThenRest(key: string, rest: string)
    requires key != [] && !IsSpace(key[0]) && LStrip(rest) != [] && LStrip(rest)[0] == '='
    ensures KeyValue(key + rest, key) == Quoted(LStrip(LStrip(rest)[1..]))
  {
    LStripPlain(key + rest);
    assert (key + rest)[|key|..] == rest;
  }

  /** `= "value"` */
  function AssignText(value: string): string {
    ['=', ' ', '"'] + value + ['"']
  }

  lemma AssignTextIs(spaces: string, value: string)
    requires '"' !in value
    requires spaces == [' '] || spaces == [' ', ' ']
    ensures LStrip(spaces + AssignText(value)) == AssignText(value) && AssignText(value)[0] == '='
    ensures Quoted(LStrip(AssignText(value)[1..])) == Some(value)
  {
    var quoted := ['"'] + value + ['"'];
    LStripOne(AssignText(value));
    assert AssignText(value)[1..] == [' '] + quoted;
    LStripOne(quoted);
    QuotedIs(value);
  }

  lemma Regroup(a: string, b: string, c: string)
    ensures a + (b + c) == a + b + c
  {
  }

  /** A line `key = "value"` as it is written, with the spaces after the key. */
  lemma KeyValueIs(key: string, spaces: string, value: string)
    requires key != [] && !IsSpace(key[0]) && '"' !in value
    requires spaces == [' '] || spaces == [' ', ' ']
    ensures KeyValue(key + spaces + AssignText(value), key) == Some(value)
  {
    AssignTextIs(spaces, value);
    hide *;
    KeyThenRest(key, spaces + AssignText(value));
    Regroup(key, spaces, AssignText(value));
  }

  /** Only lines of one kind start with a given letter. */
  lemma StartsDifferently(body: string, key: string)
    requires body != [] && !IsSpace(body[0]) && key != [] && body[0] != key[0]
    ensures KeyValue(body, key) == None
  {
    LStripPlain(body);
  }

  lemma RadiodLineIs(radiod: string)
    requires '"' !in radiod
    ensures KindOf(RadiodLine(radiod)) == Radiod(radiod)
  {
    var key, inst := "radiod_id", "instance";
    var body := key + [' '] + AssignText(radiod);
    assert RadiodLine(radiod) == body + ['\n'];
    BodyOf(body);
    KeyValueIs(key, [' '], radiod);
    assert body[0] == key[0] == 'r' && inst[0] == 'i';
    LStripPlain(body);
    StartsDifferently(body, inst);
  }

  lemma InstanceLineIs(instance: string)
    requires '"' !in instance
    ensures KindOf(InstanceLine(instance)) == Instance(instance)
  {
    var key := "instance";
    var body := key + [' ', ' '] + AssignText(instance);
    assert InstanceLine(instance) == body + ['\n'];
    BodyOf(body);
    KeyValueIs(key, [' ', ' '], instance);
    assert body[0] == key[0] == 'i';
    LStripPlain(body);
  }

  lemma BareHeaderName(client: string, rest: string)
    requires IsBareName(client) && Closes(rest) && rest != [] && !IsBareChar(rest[0])
    ensures HeaderName(client + rest) == Some(client)
  {
    var v := client + rest;
    assert v[|client|] == rest[0];
    var n := BareLength(v);
    assert n == |client|;
  }

  lemma AfterPrefix<T>(a: seq<T>, b: seq<T>)
    ensures a <= a + b && (a + b)[|a|..] == b
  {
  }

  lemma HeaderIsRead(v: string)
    requires HeaderName(v).Some?
    ensures HeaderClient("[[" + ("clients." + v)) == HeaderName(v)
  {
    var open, table := "[[", "clients.";
    AfterPrefix(table, v);
    AfterPrefix(open, table + v);
    LStripPlain(table + v);
    LStripPlain(open + (table + v));
    hide LStrip, HeaderName;
  }

  lemma BracketsClose()
    ensures Closes("]]")
  {
    LStripPlain("]]");
  }

  lemma HeaderLineIs(client: string)
    requires IsBareName(client)
    ensures KindOf(HeaderLine(client)) == Client(client)
  {
    var open, table, close := "[[", "clients.", "]]";
    var body := open + (table + (client + close));
    assert HeaderLine(client) == body + ['\n'];
    BodyOf(body);
    BracketsClose();
    BareHeaderName(client, close);
    hide HeaderName, HeaderClient, Body, Closes;
    HeaderIsRead(client + close);
  }

  lemma NewlineIsPlain()
    ensures KindOf(['\n']) == Plain
  {
    assert ['\n'][..0] == [];
    assert Body(['\n']) == [] && LStrip([]) == [];
  }

  /** A line that starts with a bracket is a header or a table whatever is
      added to it. */
  lemma BracketedStays(line: string, more: string)
    requires Bracketed(Body(line)) && more != [] && more[0] != '\r' && more[0] != '\n'
    ensures KindOf(line + more).Client? || KindOf(line + more).Table?
  {
    BodyKeepsStart(line, more);
    BodyIsPrefix(line);
    assert Body(line) <= Body(line + more);
    var rest := Body(line + more)[|Body(line)|..];
    assert Body(line + more) == Body(line) + rest;
    LStripKeepsStart(Body(line), rest);
    KindsAreTheTests(line + more);
  }

  lemma {:induction false} BodyIsPrefix(line: string)
    ensures Body(line) <= line
  {
    if line != [] && (line[|line| - 1] == '\r' || line[|line| - 1] == '\n') {
      BodyIsPrefix(line[..|line| - 1]);
    }
  }

  lemma {:induction false} BodyKeepsStart(line: string, more: string)
    requires more != [] && more[0] != '\r' && more[0] != '\n'
    ensures line <= Body(line + more)
    decreases |more|
  {
    var s := line + more;
    if s[|s| - 1] == '\r' || s[|s| - 1] == '\n' {
      assert |more| > 1;
      assert s[..|s| - 1] == line + more[..|more| - 1];
      BodyKeepsStart(line, more[..|more| - 1]);
    }
  }

  lemma {:induction false} LStripKeepsStart(s: string, more: string)
    requires LStrip(s) != []
    ensures LStrip(s + more) != [] && LStrip(s + more)[0] == LStrip(s)[0]
  {
    if s != [] && IsSpace(s[0]) {
      assert (s + more)[1..] == s[1..] + more;
      LStripKeepsStart(s[1..], more);
    }
  }

  // ---- which names are accepted ----

  /** A reporter id as people type it, in capitals, with a slash, is an instance
      name once the slash is the equals sign that stands for it. */
  lemma StorageFormIsAccepted(typed: string)
    requires forall i :: 0 <= i < |typed| ==>
      ('A' <= typed[i] <= 'Z') || ('0' <= typed[i] <= '9') || typed[i] == '-' || typed[i] == '/'
    ensures IsInstanceName(Replace(typed, '/', '='))
  {
    forall i | 0 <= i < |typed|
      ensures IsAlnum(Replace(typed, '/', '=')[i]) || Replace(typed, '/', '=')[i] in {'=', '-'} {
    }
  }

  /** A host name in small letters, with its dots, is a radiod id. */
  lemma HostNameIsAccepted(host: string)
    requires 1 <= |host| <= 253 && host[0] != '.' && host[0] != '-'
    requires forall i :: 0 <= i < |host| ==>
      ('a' <= host[i] <= 'z') || ('0' <= host[i] <= '9') || host[i] == '-' || host[i] == '.'
    ensures IsRadiodId(host)
  {
  }

  /** No accepted name can end the text or the line it is written into. */
  lemma NamesAreHarmless(s: string)
    requires IsInstanceName(s) || IsRadiodId(s) || IsBareName(s)
    ensures forall c :: c in s ==> c !in {'"', '\'', '\\', '\n', '\r', ' ', '[', ']', '#'}
  {
  }

  // ---- other spellings that are read ----

  /** A value in single quotes is read as well. */
  lemma SingleQuotesAreRead(key: string, value: string)
    requires key != [] && !IsSpace(key[0]) && '\'' !in value
    ensures KeyValue(key + (['=', '\''] + value + ['\'']), key) == Some(value)
  {
    var rest := ['=', '\''] + value + ['\''];
    LStripPlain(rest);
    KeyThenRest(key, rest);
    var quoted := ['\''] + value + ['\''];
    assert rest[1..] == quoted;
    LStripPlain(quoted);
    PartitionAt(value, '\'', []);
    assert quoted[1..] == value + ['\''] + [];
    hide LStrip, KeyValue;
  }

  lemma QuotedName(client: string, rest: string)
    requires client != [] && '"' !in client && Closes(rest)
    ensures HeaderName(['"'] + client + ['"'] + rest) == Some(client)
  {
    var v := ['"'] + client + ['"'] + rest;
    var w := client + ['"'] + rest;
    PartitionAt(client, '"', rest);
    assert v[1..] == w;
    assert IndexOf(w, '"') == |client| by {
      assert Before(w, '"') == client;
      assert w[|client|] == '"';
    }
    assert w[|client| + 1..] == rest && w[..|client|] == client;
    hide Closes;
  }

  /** A header may quote its client, and a comment may follow it. */
  lemma QuotedHeaderIsRead(client: string, comment: string)
    requires client != [] && '"' !in client
    ensures HeaderClient("[[" + ("clients." + (['"'] + client + ['"'] + ("]]" + (['#'] + comment))))) == Some(client)
  {
    hide *;
    CommentCloses(comment);
    QuotedName(client, "]]" + (['#'] + comment));
    HeaderIsRead(['"'] + client + ['"'] + ("]]" + (['#'] + comment)));
  }

  lemma CommentCloses(comment: string)
    ensures Closes("]]" + (['#'] + comment))
  {
    var close, rest := "]]", ['#'] + comment;
    LStripPlain(close + rest);
    AfterPrefix(close, rest);
    LStripPlain(rest);
    hide LStrip;
  }
}

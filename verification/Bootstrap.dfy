/** The exact text the coordinator signs over a bootstrap document. */
module Bootstrap {
  import opened Text

  const PREFIX: string := "rabbiit-storage-bootstrap-v2"

  datatype Document = Document(peers: seq<string>, relays: seq<string>, origin: string, coordinatorKey: string, expiresAt: string)

  function Joined(lines: seq<string>): string {
    if lines == [] then ""
    else if |lines| == 1 then lines[0]
    else lines[0] + "\n" + Joined(lines[1..])
  }

  function OriginLine(origin: string): string {
    if origin == "" then "-" else origin
  }

  function Lines(d: Document): seq<string> {
    [PREFIX, "expires_at: " + d.expiresAt, "coordinator: " + d.coordinatorKey, "peers: " + Decimal(|d.peers|)]
    + d.peers + ["relays: " + Decimal(|d.relays|)] + d.relays + ["origin: " + OriginLine(d.origin)]
  }

  /** Builds the signed message line by line. */
  method Message(d: Document) returns (text: string)
    ensures text == Joined(Lines(d))
  {
    var origin := if d.origin == "" then "-" else d.origin;
    var lines := [PREFIX, "expires_at: " + d.expiresAt, "coordinator: " + d.coordinatorKey,
                  "peers: " + Decimal(|d.peers|)];
    lines := lines + d.peers;
    lines := lines + ["relays: " + Decimal(|d.relays|)];
    lines := lines + d.relays;
    lines := lines + ["origin: " + origin];
    text := Joined(lines);
  }

  // ---- splitting a joined text ---------------------------------------------------------------

  predicate OneLine(s: string) {
    '\n' !in s
  }

  predicate AllOneLine(lines: seq<string>) {
    forall i :: 0 <= i < |lines| ==> OneLine(lines[i])
  }

  /** The first line of a text is what comes before its first newline. */
  lemma {:induction false} FirstLineUnique(a: string, s: string, b: string, t: string)
    requires OneLine(a) && OneLine(b)
    requires a + "\n" + s == b + "\n" + t
    ensures a == b && s == t
  {
    NewlineAt(a, s);
    NewlineAt(b, t);
    var x := a + "\n" + s;
    assert |a| == |b|;
    assert x[..|a|] == a && (b + "\n" + t)[..|a|] == b;
    assert x[|a| + 1..] == s && (b + "\n" + t)[|a| + 1..] == t;
  }

  lemma NewlineAt(a: string, s: string)
    requires OneLine(a)
    ensures (a + "\n" + s)[|a|] == '\n'
    ensures forall i :: 0 <= i < |a| ==> (a + "\n" + s)[i] != '\n'
  {
  }

  lemma NotOneLine(a: string, s: string)
    ensures !OneLine(a + "\n" + s)
  {
    assert (a + "\n" + s)[|a|] == '\n';
  }

  /** Lines without newlines can be recovered from the joined text. */
  lemma {:induction false} JoinedInjective(p: seq<string>, q: seq<string>)
    requires |p| > 0 && |q| > 0 && AllOneLine(p) && AllOneLine(q)
    requires Joined(p) == Joined(q)
    ensures p == q
  {
    hide OneLine;
    if |p| == 1 && |q| == 1 {
      assert p == [p[0]] && q == [q[0]];
    } else if |p| == 1 {
      NotOneLine(q[0], Joined(q[1..]));
      assert false;
    } else if |q| == 1 {
      NotOneLine(p[0], Joined(p[1..]));
      assert false;
    } else {
      FirstLineUnique(p[0], Joined(p[1..]), q[0], Joined(q[1..]));
      JoinedInjective(p[1..], q[1..]);
      assert p == [p[0]] + p[1..] && q == [q[0]] + q[1..];
    }
  }

  // ---- what the signature fixes ------------------------------------------------------------------

  predicate NewlineFree(d: Document) {
    && AllOneLine(d.peers) && AllOneLine(d.relays)
    && OneLine(d.origin) && OneLine(d.coordinatorKey) && OneLine(d.expiresAt)
  }

  /** The same document, taking an absent origin and "-" for one. */
  predicate Same(c: Document, d: Document) {
    && c.expiresAt == d.expiresAt && c.coordinatorKey == d.coordinatorKey
    && c.peers == d.peers && c.relays == d.relays
    && OriginLine(c.origin) == OriginLine(d.origin)
  }

  lemma OneLineAppend(a: string, b: string)
    requires OneLine(a) && OneLine(b)
    ensures OneLine(a + b)
  {
  }

  lemma DecimalOneLine(n: nat)
    ensures OneLine(Decimal(n))
  {
    forall i | 0 <= i < |Decimal(n)| ensures Decimal(n)[i] != '\n' {
      DecimalPlain(n, i);
    }
  }

  lemma LinesOneLine(d: Document)
    requires NewlineFree(d)
    ensures AllOneLine(Lines(d)) && |Lines(d)| == 6 + |d.peers| + |d.relays|
  {
    DecimalOneLine(|d.peers|);
    DecimalOneLine(|d.relays|);
    OneLineAppend("expires_at: ", d.expiresAt);
    OneLineAppend("coordinator: ", d.coordinatorKey);
    OneLineAppend("peers: ", Decimal(|d.peers|));
    OneLineAppend("relays: ", Decimal(|d.relays|));
    OneLineAppend("origin: ", OriginLine(d.origin));
    assert OneLine(PREFIX);
    hide OneLine, Decimal;
  }

  lemma SameTail(prefix: string, a: string, b: string)
    requires prefix + a == prefix + b
    ensures a == b
  {
    assert (prefix + a)[|prefix|..] == a && (prefix + b)[|prefix|..] == b;
  }

  lemma LinesFix(c: Document, d: Document)
    requires Lines(c) == Lines(d)
    ensures Same(c, d)
  {
    hide Decimal;
    var p, q := Lines(c), Lines(d);
    assert p[1] == q[1] && p[2] == q[2] && p[3] == q[3];
    SameTail("expires_at: ", c.expiresAt, d.expiresAt);
    SameTail("coordinator: ", c.coordinatorKey, d.coordinatorKey);
    SameTail("peers: ", Decimal(|c.peers|), Decimal(|d.peers|));
    DecimalInjective(|c.peers|, |d.peers|);
    var n := 4 + |c.peers|;
    assert p[4..n] == c.peers && q[4..n] == d.peers;
    assert p[n] == "relays: " + Decimal(|c.relays|) && q[n] == "relays: " + Decimal(|d.relays|);
    SameTail("relays: ", Decimal(|c.relays|), Decimal(|d.relays|));
    DecimalInjective(|c.relays|, |d.relays|);
    var m := n + 1 + |c.relays|;
    assert p[n + 1..m] == c.relays && q[n + 1..m] == d.relays;
    assert p[m] == "origin: " + OriginLine(c.origin) && q[m] == "origin: " + OriginLine(d.origin);
    SameTail("origin: ", OriginLine(c.origin), OriginLine(d.origin));
  }

  /** Two newline-free documents have the same signed message exactly when they agree on
      expiry, key, origin and both lists in order and length: entries can be neither
      dropped, added, reordered nor moved from one list to the other. */
  lemma MessageFixesDocument(c: Document, d: Document)
    requires NewlineFree(c) && NewlineFree(d)
    ensures Joined(Lines(c)) == Joined(Lines(d)) <==> Same(c, d)
  {
    LinesOneLine(c);
    LinesOneLine(d);
    hide Lines, AllOneLine, Joined;
    if Joined(Lines(c)) == Joined(Lines(d)) {
      JoinedInjective(Lines(c), Lines(d));
      LinesFix(c, d);
    } else if Same(c, d) {
      SameLines(c, d);
    }
  }

  lemma SameLines(c: Document, d: Document)
    requires Same(c, d)
    ensures Lines(c) == Lines(d)
  {
    hide Decimal;
  }

  /** A newline inside an entry defeats it: one peer can pass for a peer, the relay
      count, and a relay, and the relay list for what was left. */
  lemma NewlineMovesAnEntry(expiresAt: string, key: string, origin: string)
    ensures var c := Document(["a\nrelays: 1\nb"], [], origin, key, expiresAt);
            var d := Document(["a"], ["b\nrelays: 0"], origin, key, expiresAt);
            Joined(Lines(c)) == Joined(Lines(d)) && !Same(c, d)
  {
    var c := Document(["a\nrelays: 1\nb"], [], origin, key, expiresAt);
    var d := Document(["a"], ["b\nrelays: 0"], origin, key, expiresAt);
    var head := [PREFIX, "expires_at: " + expiresAt, "coordinator: " + key, "peers: " + Decimal(1)];
    var last := "origin: " + OriginLine(origin);
    assert "relays: " + Decimal(0) == "relays: 0" && "relays: " + Decimal(1) == "relays: 1" by {
      assert Decimal(1) == "1" && Decimal(0) == "0";
    }
    assert |c.peers| == 1 == |d.peers| && |c.relays| == 0 && |d.relays| == 1;
    assert Lines(c) == head + ["a\nrelays: 1\nb", "relays: 0", last];
    assert Lines(d) == head + ["a", "relays: 1", "b\nrelays: 0", last];
    Join3("a\nrelays: 1\nb", "relays: 0", last);
    Join4("a", "relays: 1", "b\nrelays: 0", last);
    assert "a\nrelays: 1\nb" + "\n" + "relays: 0" == "a" + "\n" + "relays: 1" + "\n" + "b\nrelays: 0";
    JoinedAppend(head, ["a\nrelays: 1\nb", "relays: 0", last]);
    JoinedAppend(head, ["a", "relays: 1", "b\nrelays: 0", last]);
  }

  lemma Join3(a: string, b: string, c: string)
    ensures Joined([a, b, c]) == a + "\n" + b + "\n" + c
  {
    assert [a, b, c][1..] == [b, c] && [b, c][1..] == [c];
    assert Joined([b, c]) == b + "\n" + c;
  }

  lemma Join4(a: string, b: string, c: string, d: string)
    ensures Joined([a, b, c, d]) == a + "\n" + b + "\n" + c + "\n" + d
  {
    assert [a, b, c, d][1..] == [b, c, d];
    Join3(b, c, d);
  }

  lemma {:induction false} JoinedAppend(p: seq<string>, q: seq<string>)
    requires |p| > 0 && |q| > 0
    ensures Joined(p + q) == Joined(p) + "\n" + Joined(q)
  {
    if |p| == 1 {
      assert (p + q)[1..] == q;
    } else {
      assert (p + q)[1..] == p[1..] + q;
      JoinedAppend(p[1..], q);
    }
  }
}

/**
 The audit log's hash chain, after
 prisma/migrations/20260918120000_audit_log_hash_chain/migration.sql. The hash is any
 function from text to text; what is proved is that a forged log needs two inputs with
 one hash, and which two they are.
 */
module AuditChain {

  /** One audit row as hashed: texts of the event, bond id, user id, payload and time. */
  datatype Entry = Entry(event: string, bond: string, user: string, payload: string, at: string)

  datatype Row = Row(entry: Entry, prevHash: string, eventHash: string)

  predicate NoBar(s: string) {
    '|' !in s
  }

  /** Event names, ids and timestamps contain no bar; payloads may. */
  predicate Plain(e: Entry) {
    NoBar(e.event) && NoBar(e.bond) && NoBar(e.user) && NoBar(e.at)
  }

  function Input(prev: string, e: Entry): string {
    prev + "|" + (e.event + "|" + (e.bond + "|" + (e.user + "|" + (e.payload + ("|" + e.at)))))
  }

  /** What an SHA-256 digest in hex is like: never empty, no bars. */
  ghost predicate DigestLike(hash: string -> string) {
    forall x :: hash(x) != "" && NoBar(hash(x))
  }

  /** The chain head after a log. */
  function Head(hash: string -> string, log: seq<Entry>): string {
    if log == [] then "" else hash(Input(Head(hash, log[..|log| - 1]), log[|log| - 1]))
  }

  // ---- The table ----

  function EntriesOf(rows: seq<Row>): (es: seq<Entry>)
    ensures |es| == |rows|
  {
    if rows == [] then [] else EntriesOf(rows[..|rows| - 1]) + [rows[|rows| - 1].entry]
  }

  /** The event hash of the last row, or the empty head of an empty log. */
  function LastHash(rows: seq<Row>): string {
    if rows == [] then "" else rows[|rows| - 1].eventHash
  }

  /** What anyone holding the table can check: each row carries the hash before it and hashes to its own. */
  ghost predicate Linked(hash: string -> string, rows: seq<Row>) {
    forall i :: 0 <= i < |rows| ==>
      && rows[i].prevHash == LastHash(rows[..i])
      && rows[i].eventHash == hash(Input(rows[i].prevHash, rows[i].entry))
  }

  /** The stored hashes of a linked table are the heads computed from its entries alone. */
  lemma {:induction false} LinkedRowsCarryTheHead(hash: string -> string, rows: seq<Row>)
    requires Linked(hash, rows)
    ensures LastHash(rows) == Head(hash, EntriesOf(rows))
  {
    if rows != [] {
      var init := rows[..|rows| - 1];
      forall i | 0 <= i < |init|
        ensures init[i].prevHash == LastHash(init[..i])
      {
        assert init[..i] == rows[..i];
      }
      LinkedRowsCarryTheHead(hash, init);
      assert EntriesOf(rows)[..|init|] == EntriesOf(init);
    }
  }

  lemma LinkOne(hash: string -> string, rows: seq<Row>, row: Row)
    requires Linked(hash, rows)
    requires row.prevHash == LastHash(rows) && row.eventHash == hash(Input(row.prevHash, row.entry))
    ensures Linked(hash, rows + [row])
  {
    var next := rows + [row];
    forall i | 0 <= i < |next|
      ensures next[i].prevHash == LastHash(next[..i])
      ensures next[i].eventHash == hash(Input(next[i].prevHash, next[i].entry))
    {
      if i == |rows| {
        assert next[..i] == rows;
      } else {
        assert next[..i] == rows[..i];
      }
    }
  }

  /** The log table and its head row; the trigger links each insert onto the head. */
  class AuditLog {
    const hash: string -> string
    var rows: seq<Row>
    var lastHash: string

    constructor (hash: string -> string)
      ensures this.hash == hash && Valid() && rows == []
    {
      this.hash := hash;
      rows, lastHash := [], "";
    }

    ghost predicate Valid()
      reads this
    {
      lastHash == LastHash(rows) && Linked(hash, rows)
    }

    method Insert(e: Entry)
      requires Valid()
      modifies this`rows, this`lastHash
      ensures Valid()
      ensures rows == old(rows) + [Row(e, old(lastHash), lastHash)]
      ensures lastHash == Head(hash, EntriesOf(old(rows)) + [e])
    {
      var eventHash := hash(Input(lastHash, e));
      var row := Row(e, lastHash, eventHash);
      LinkOne(hash, rows, row);
      LinkedRowsCarryTheHead(hash, rows);
      assert (EntriesOf(rows) + [e])[..|rows|] == EntriesOf(rows);
      rows := rows + [row];
      lastHash := eventHash;
    }
  }

  // ---- The hashed text can be taken apart again ----

  lemma FirstChar(a: string, x: string)
    requires NoBar(a)
    ensures (a + "|" + x)[0] == '|' <==> a == ""
  {
    if a != "" {
      assert (a + "|" + x)[0] == a[0] && a[0] in a;
    }
  }

  /** The first bar ends the first field. */
  lemma {:induction false} FirstFieldUnique(a: string, x: string, b: string, y: string)
    requires NoBar(a) && NoBar(b) && a + "|" + x == b + "|" + y
    ensures a == b && x == y
  {
    FirstChar(a, x);
    FirstChar(b, y);
    if a == "" {
      assert (a + "|" + x)[1..] == x && (b + "|" + y)[1..] == y;
    } else {
      assert (a + "|" + x)[0] == a[0] && (b + "|" + y)[0] == b[0];
      assert (a + "|" + x)[1..] == a[1..] + "|" + x && (b + "|" + y)[1..] == b[1..] + "|" + y;
      FirstFieldUnique(a[1..], x, b[1..], y);
      assert a == [a[0]] + a[1..] && b == [b[0]] + b[1..];
    }
  }

  lemma LastBar(x: string, a: string)
    requires NoBar(a)
    ensures (x + ("|" + a))[|x|] == '|'
    ensures forall k :: |x| < k < |x + ("|" + a)| ==> (x + ("|" + a))[k] != '|'
  {
    forall k | |x| < k < |x + ("|" + a)|
      ensures (x + ("|" + a))[k] != '|'
    {
      assert (x + ("|" + a))[k] == a[k - |x| - 1] && a[k - |x| - 1] in a;
    }
  }

  /** The last bar starts the last field, whatever bars come before it. */
  lemma LastFieldUnique(x: string, a: string, y: string, b: string)
    requires NoBar(a) && NoBar(b) && x + ("|" + a) == y + ("|" + b)
    ensures x == y && a == b
  {
    LastBar(x, a);
    LastBar(y, b);
    assert |x| == |y|;
    assert (x + ("|" + a))[..|x|] == x && (y + ("|" + b))[..|y|] == y;
    assert (x + ("|" + a))[|x| + 1..] == a && (y + ("|" + b))[|y| + 1..] == b;
  }

  /** The hashed text determines the previous hash and every field, even with bars in the payload. */
  lemma InputInjective(p: string, e: Entry, q: string, f: Entry)
    requires NoBar(p) && NoBar(q) && Plain(e) && Plain(f)
    requires Input(p, e) == Input(q, f)
    ensures p == q && e == f
  {
    FirstFieldUnique(p, e.event + "|" + (e.bond + "|" + (e.user + "|" + (e.payload + ("|" + e.at)))),
                     q, f.event + "|" + (f.bond + "|" + (f.user + "|" + (f.payload + ("|" + f.at)))));
    FirstFieldUnique(e.event, e.bond + "|" + (e.user + "|" + (e.payload + ("|" + e.at))),
                     f.event, f.bond + "|" + (f.user + "|" + (f.payload + ("|" + f.at))));
    FirstFieldUnique(e.bond, e.user + "|" + (e.payload + ("|" + e.at)), f.bond, f.user + "|" + (f.payload + ("|" + f.at)));
    FirstFieldUnique(e.user, e.payload + ("|" + e.at), f.user, f.payload + ("|" + f.at));
    LastFieldUnique(e.payload, e.at, f.payload, f.at);
  }

  predicate AllPlain(log: seq<Entry>) {
    forall i :: 0 <= i < |log| ==> Plain(log[i])
  }

  lemma HeadHasNoBar(hash: string -> string, log: seq<Entry>)
    requires DigestLike(hash)
    ensures NoBar(Head(hash, log)) && (Head(hash, log) == "" <==> log == [])
  {
  }

  /** Is this text one of those hashed while the log was written? */
  ghost predicate HashedIn(hash: string -> string, log: seq<Entry>, text: string) {
    exists k :: 0 <= k < |log| && text == Input(Head(hash, log[..k]), log[k])
  }

  lemma HashedInPrefix(hash: string -> string, log: seq<Entry>, text: string)
    requires log != [] && HashedIn(hash, log[..|log| - 1], text)
    ensures HashedIn(hash, log, text)
  {
    var prefix := log[..|log| - 1];
    var k :| 0 <= k < |prefix| && text == Input(Head(hash, prefix[..k]), prefix[k]);
    assert prefix[..k] == log[..k] && prefix[k] == log[k];
  }

  /**
   Two different logs with one chain head: walking back from the end finds the first pair
   of different texts, one hashed for each log, with the same hash.
   */
  ghost function Collision(hash: string -> string, a: seq<Entry>, b: seq<Entry>): (c: (string, string))
    requires DigestLike(hash) && AllPlain(a) && AllPlain(b)
    requires a != b && Head(hash, a) == Head(hash, b)
    ensures c.0 != c.1 && hash(c.0) == hash(c.1)
    ensures HashedIn(hash, a, c.0) && HashedIn(hash, b, c.1)
    decreases |a|
  {
    HeadHasNoBar(hash, a);
    HeadHasNoBar(hash, b);
    var a', b' := a[..|a| - 1], b[..|b| - 1];
    var x, y := Input(Head(hash, a'), a[|a| - 1]), Input(Head(hash, b'), b[|b| - 1]);
    if x != y then (x, y)
    else
      HeadHasNoBar(hash, a');
      HeadHasNoBar(hash, b');
      InputInjective(Head(hash, a'), a[|a| - 1], Head(hash, b'), b[|b| - 1]);
      assert a == a' + [a[|a| - 1]] && b == b' + [b[|b| - 1]];
      var c := Collision(hash, a', b');
      HashedInPrefix(hash, a, c.0);
      HashedInPrefix(hash, b, c.1);
      c
  }

  lemma SameTail(a: seq<Entry>, b: seq<Entry>, tail: seq<Entry>)
    requires a + tail == b + tail
    ensures a == b
  {
    assert |a| == |b| && (a + tail)[..|a|] == a && (b + tail)[..|b|] == b;
  }

  /**
   A log that differs anywhere in the past reaches the same head again, however the two go
   on alike, only at the price of an explicit collision of the hash, between a text hashed
   for the one and a text hashed for the other: altering, inserting, dropping or reordering
   rows otherwise always shows at the end.
   */
  lemma AlteredLogNeverCatchesUp(hash: string -> string, a: seq<Entry>, b: seq<Entry>, tail: seq<Entry>)
    requires DigestLike(hash) && AllPlain(a) && AllPlain(b) && AllPlain(tail)
    requires a != b
    ensures a + tail != b + tail && AllPlain(a + tail) && AllPlain(b + tail)
    ensures Head(hash, a + tail) == Head(hash, b + tail) ==>
              var c := Collision(hash, a + tail, b + tail);
              && c.0 != c.1 && hash(c.0) == hash(c.1)
              && HashedIn(hash, a + tail, c.0) && HashedIn(hash, b + tail, c.1)
  {
    if a + tail == b + tail {
      SameTail(a, b, tail);
    }
  }

  /** The order in which a row is hashed: the hash before it, event, bond, user, payload, time. */
  lemma HashedInThisOrder()
    ensures Input("p", Entry("e", "b", "u", "{}", "t")) == "p|e|b|u|{}|t"
  {
    assert "p" + "|" + ("e" + "|" + ("b" + "|" + ("u" + "|" + ("{}" + ("|" + "t"))))) == "p|e|b|u|{}|t";
  }

  /** An event name with a bar in it would make two different rows hash the same text. */
  lemma BarInEventNameIsAmbiguous(prev: string)
    ensures Input(prev, Entry("a|b", "", "c", "p", "t")) == Input(prev, Entry("a", "b", "", "c|p", "t"))
  {
    var e, f := Entry("a|b", "", "c", "p", "t"), Entry("a", "b", "", "c|p", "t");
    assert "a|b" + "|" + ("" + "|" + ("c" + "|" + ("p" + ("|" + "t")))) == "a|b||c|p|t";
    assert "a" + "|" + ("b" + "|" + ("" + "|" + ("c|p" + ("|" + "t")))) == "a|b||c|p|t";
  }
}

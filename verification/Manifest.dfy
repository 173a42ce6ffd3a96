/** The FACTORY_MANIFEST text: parsing, seeding, and what survives a round trip and a restart. */
module Manifest {
  import opened Prelude
  import opened DeviceTables
  import opened DeviceStore
  import opened ServerProtocol

  datatype Entry = Entry(serial: string, token: string, model: string)

  const DEFAULT_MODEL := "Alpha Wheeled"

  // ── Text ────────────────────────────────────────────────────────────────────

  /** The characters str::trim removes (Unicode White_Space). */
  predicate IsSpace(c: char) {
    '\t' <= c <= '\r' || c == ' ' || c == '\U{85}' || c == '\U{A0}' || c == '\U{1680}' || '\U{2000}' <= c <= '\U{200A}'
    || c == '\U{2028}' || c == '\U{2029}' || c == '\U{202F}' || c == '\U{205F}' || c == '\U{3000}'
  }

  predicate Trimmed(s: string) {
    s != "" ==> !IsSpace(s[0]) && !IsSpace(s[|s| - 1])
  }

  function Trim(s: string): (r: string)
    ensures Trimmed(r)
    ensures Trimmed(s) ==> r == s
    ensures forall c :: c in r ==> c in s
  {
    if s == "" then s
    else if IsSpace(s[0]) then Trim(s[1..])
    else if IsSpace(s[|s| - 1]) then Trim(s[..|s| - 1])
    else s
  }

  predicate AllSpace(s: string) {
    forall c :: c in s ==> IsSpace(c)
  }

  /** The White_Space characters of Unicode, by code point. */
  lemma SpacesByCode(c: char)
    ensures IsSpace(c) <==>
              (c as int) in {0x9, 0xA, 0xB, 0xC, 0xD, 0x20, 0x85, 0xA0, 0x1680, 0x2000, 0x2001, 0x2002, 0x2003, 0x2004,
                             0x2005, 0x2006, 0x2007, 0x2008, 0x2009, 0x200A, 0x2028, 0x2029, 0x202F, 0x205F, 0x3000}
  {
  }

  /** Trimming takes off white space on both sides and nothing else. */
  lemma {:induction false} TrimTakesOffSpace(lead: string, body: string, tail: string)
    requires AllSpace(lead) && AllSpace(tail) && Trimmed(body)
    ensures Trim(lead + body + tail) == body
    decreases |lead| + |tail|
  {
    var s := lead + body + tail;
    if lead != "" {
      assert s[0] == lead[0] && lead[0] in lead && s[1..] == lead[1..] + body + tail;
      TrimTakesOffSpace(lead[1..], body, tail);
    } else if tail != "" && body != "" {
      var n := |tail| - 1;
      assert s[0] == body[0] && s[|s| - 1] == tail[n] && tail[n] in tail && s[..|s| - 1] == lead + body + tail[..n];
      TrimTakesOffSpace(lead, body, tail[..n]);
    } else if tail != "" {
      assert s == tail && tail[0] in tail && s[1..] == lead + body + tail[1..];
      TrimTakesOffSpace(lead, body, tail[1..]);
    } else {
      assert s == body;
    }
  }

  /** Position of the first `c`, or the length. */
  function Find(s: string, c: char): (i: nat)
    ensures i <= |s| && c !in s[..i]
    ensures i < |s| ==> s[i] == c
    ensures c !in s <==> i == |s|
  {
    if s == "" || s[0] == c then 0 else Find(s[1..], c) + 1
  }

  function Split(s: string, c: char): (r: seq<string>)
    ensures r != []
    ensures forall p :: p in r ==> c !in p
  {
    var i := Find(s, c);
    if i == |s| then [s] else [s[..i]] + Split(s[i + 1..], c)
  }

  function Join(parts: seq<string>, c: char): string {
    if parts == [] then ""
    else if |parts| == 1 then parts[0]
    else parts[0] + [c] + Join(parts[1..], c)
  }

  /** Cutting at the first `c` undoes gluing with `c`. */
  lemma CutAt(a: string, c: char, b: string)
    requires c !in a
    ensures Find(a + [c] + b, c) == |a|
    ensures (a + [c] + b)[..|a|] == a && (a + [c] + b)[|a| + 1..] == b
  {
    assert (a + [c] + b)[|a|] == c;
  }

  lemma {:induction false} SplitJoin(parts: seq<string>, c: char)
    requires parts != [] && forall p :: p in parts ==> c !in p
    ensures Split(Join(parts, c), c) == parts
  {
    if |parts| > 1 {
      var rest := Join(parts[1..], c);
      CutAt(parts[0], c, rest);
      SplitJoin(parts[1..], c);
    }
  }

  lemma JoinCons(part: string, parts: seq<string>, c: char)
    requires parts != []
    ensures Join([part] + parts, c) == part + [c] + Join(parts, c)
  {
    assert ([part] + parts)[1..] == parts;
  }

  lemma {:induction false} JoinSplit(s: string, c: char)
    ensures Join(Split(s, c), c) == s
    decreases |s|
  {
    var i := Find(s, c);
    if i < |s| {
      JoinSplit(s[i + 1..], c);
      JoinCons(s[..i], Split(s[i + 1..], c), c);
      Glued(s, c);
    }
  }

  // ── Entries ─────────────────────────────────────────────────────────────────

  /** `entry` is one comma-separated piece, trimmed and not empty; one colon is the least it needs. */
  function ParseEntry(entry: string): Option<Entry> {
    var i := Find(entry, ':');
    if i == |entry| then None
    else
      var rest := entry[i + 1..];
      var j := Find(rest, ':');
      if j == |rest| then Some(Entry(entry[..i], rest, DEFAULT_MODEL))
      else Some(Entry(entry[..i], rest[..j], rest[j + 1..]))
  }

  function ParsePieces(pieces: seq<string>): seq<Entry> {
    if pieces == [] then []
    else
      var entry := Trim(pieces[0]);
      var rest := ParsePieces(pieces[1..]);
      if entry == "" || ParseEntry(entry).None? then rest else [ParseEntry(entry).value] + rest
  }

  function Parse(text: string): seq<Entry> {
    ParsePieces(Split(text, ','))
  }

  function PrintEntry(e: Entry): string {
    e.serial + [':'] + (e.token + [':'] + e.model)
  }

  function PrintAll(es: seq<Entry>): (r: seq<string>)
    ensures |r| == |es| && forall i :: 0 <= i < |r| ==> r[i] == PrintEntry(es[i])
  {
    if es == [] then [] else [PrintEntry(es[0])] + PrintAll(es[1..])
  }

  function Print(es: seq<Entry>): string {
    Join(PrintAll(es), ',')
  }

  /** One colon leaves the model out. */
  lemma TwoFields(entry: string, serial: string, token: string)
    requires ':' !in serial && ':' !in token && entry == serial + [':'] + token
    ensures ParseEntry(entry) == Some(Entry(serial, token, DEFAULT_MODEL))
  {
    CutAt(serial, ':', token);
  }

  /** From the second colon on, all is model. */
  lemma ThreeFields(entry: string, serial: string, token: string, model: string)
    requires ':' !in serial && ':' !in token && entry == serial + [':'] + (token + [':'] + model)
    ensures ParseEntry(entry) == Some(Entry(serial, token, model))
  {
    var rest := token + [':'] + model;
    CutAt(serial, ':', rest);
    CutAt(token, ':', model);
    ParseByCuts(entry, Entry(serial, token, model), rest);
  }

  /** No colon, no entry; one colon, the default model; from the second colon on, all is model. */
  lemma EntryForms(serial: string, token: string, model: string)
    requires ':' !in serial && ':' !in token
    ensures ParseEntry(serial) == None && DEFAULT_MODEL == "Alpha Wheeled"
    ensures ParseEntry(serial + [':'] + token) == Some(Entry(serial, token, DEFAULT_MODEL))
    ensures ParseEntry(serial + [':'] + (token + [':'] + model)) == Some(Entry(serial, token, model))
  {
    TwoFields(serial + [':'] + token, serial, token);
    ThreeFields(serial + [':'] + (token + [':'] + model), serial, token, model);
  }

  /** What the format can carry. */
  predicate Canonical(e: Entry) {
    && ',' !in e.serial && ',' !in e.token && ',' !in e.model
    && ':' !in e.serial && ':' !in e.token
    && Trimmed(PrintEntry(e))
  }

  lemma ParseByCuts(entry: string, e: Entry, rest: string)
    requires Find(entry, ':') == |e.serial| < |entry|
    requires entry[..|e.serial|] == e.serial && entry[|e.serial| + 1..] == rest
    requires Find(rest, ':') == |e.token| < |rest|
    requires rest[..|e.token|] == e.token && rest[|e.token| + 1..] == e.model
    ensures ParseEntry(entry) == Some(e)
  {
  }

  lemma ParsePrintEntry(e: Entry)
    requires Canonical(e)
    ensures ParseEntry(PrintEntry(e)) == Some(e)
  {
    var rest := e.token + [':'] + e.model;
    CutAt(e.serial, ':', rest);
    CutAt(e.token, ':', e.model);
    ParseByCuts(PrintEntry(e), e, rest);
  }

  lemma TrimmedConcat(s: string, t: string)
    requires s != "" && t != "" && Trimmed(s) && Trimmed(t)
    ensures Trimmed(s + t)
  {
  }

  lemma Glued(s: string, c: char)
    requires Find(s, c) < |s|
    ensures s == s[..Find(s, c)] + [c] + s[Find(s, c) + 1..]
    ensures forall d :: d in s[..Find(s, c)] || d in s[Find(s, c) + 1..] ==> d in s
  {
  }

  lemma ColonsGlueBack(entry: string, rest: string, e: Entry)
    requires Find(entry, ':') < |entry| && rest == entry[Find(entry, ':') + 1..] && Find(rest, ':') < |rest|
    requires ParseEntry(entry) == Some(e)
    ensures PrintEntry(e) == entry
  {
    Glued(entry, ':');
    Glued(rest, ':');
    assert rest == e.token + [':'] + e.model;
  }

  lemma Reassociate(a: string, c: string, b: string, m: string)
    ensures a + c + (b + c + m) == (a + c + b) + (c + m)
  {
  }

  lemma DefaultGluesBack(entry: string, rest: string, e: Entry)
    requires Find(entry, ':') < |entry| && rest == entry[Find(entry, ':') + 1..]
    requires e == Entry(entry[..Find(entry, ':')], rest, DEFAULT_MODEL)
    ensures PrintEntry(e) == entry + ([':'] + DEFAULT_MODEL)
  {
    Glued(entry, ':');
    Reassociate(e.serial, [':'], rest, DEFAULT_MODEL);
  }

  lemma DefaultTailTrimmed(tail: string)
    requires tail == [':'] + DEFAULT_MODEL
    ensures tail != "" && Trimmed(tail)
  {
    assert tail[0] == ':' && tail[|tail| - 1] == 'd';
  }

  lemma ParsedIsTrimmed(entry: string)
    requires Trimmed(entry) && ParseEntry(entry).Some?
    ensures Trimmed(PrintEntry(ParseEntry(entry).value))
  {
    var e := ParseEntry(entry).value;
    var rest := entry[Find(entry, ':') + 1..];
    if Find(rest, ':') == |rest| {
      DefaultGluesBack(entry, rest, e);
      DefaultTailTrimmed([':'] + DEFAULT_MODEL);
      TrimmedConcat(entry, [':'] + DEFAULT_MODEL);
    } else {
      ColonsGlueBack(entry, rest, e);
    }
  }

  lemma ParsedIsCanonical(entry: string)
    requires Trimmed(entry) && ',' !in entry && ParseEntry(entry).Some?
    ensures Canonical(ParseEntry(entry).value)
  {
    ParsedIsTrimmed(entry);
    var rest := entry[Find(entry, ':') + 1..];
    Glued(entry, ':');
    if Find(rest, ':') < |rest| {
      Glued(rest, ':');
    }
  }

  lemma {:induction false} PiecesAreCanonical(pieces: seq<string>, e: Entry)
    requires forall p :: p in pieces ==> ',' !in p
    requires e in ParsePieces(pieces)
    ensures Canonical(e)
  {
    var entry := Trim(pieces[0]);
    if entry != "" && ParseEntry(entry) == Some(e) {
      ParsedIsCanonical(entry);
    } else {
      PiecesAreCanonical(pieces[1..], e);
    }
  }

  lemma ParseOne(piece: string)
    ensures var entry := Trim(piece);
            ParsePieces([piece]) ==
              if entry == "" || ParseEntry(entry).None? then [] else [ParseEntry(entry).value]
  {
    assert [piece][1..] == [];
    assert ParsePieces([]) == [];
  }

  lemma PrintedPieceIsAnEntry(e: Entry)
    requires Canonical(e)
    ensures Trim(PrintEntry(e)) == PrintEntry(e) != "" && ParseEntry(PrintEntry(e)) == Some(e)
  {
    ParsePrintEntry(e);
  }

  lemma ParsePiecesCons(piece: string, rest: seq<string>, e: Entry)
    requires Trim(piece) == piece != "" && ParseEntry(piece) == Some(e)
    ensures ParsePieces([piece] + rest) == [e] + ParsePieces(rest)
  {
    assert ([piece] + rest)[1..] == rest;
  }

  lemma {:induction false} ParsePrintPieces(es: seq<Entry>)
    requires forall e :: e in es ==> Canonical(e)
    ensures ParsePieces(PrintAll(es)) == es
  {
    if es != [] {
      ParsePrintPieces(es[1..]);
      PrintedPieceIsAnEntry(es[0]);
      ParsePiecesCons(PrintEntry(es[0]), PrintAll(es[1..]), es[0]);
    }
  }

  lemma CanonicalRoundTrip(es: seq<Entry>)
    requires forall e :: e in es ==> Canonical(e)
    ensures Parse(Print(es)) == es
  {
    if es == [] {
      assert Split("", ',') == [""];
      ParseOne("");
    } else {
      forall p | p in PrintAll(es) ensures ',' !in p {
        var i :| 0 <= i < |es| && PrintAll(es)[i] == p;
        assert Canonical(es[i]);
      }
      SplitJoin(PrintAll(es), ',');
      ParsePrintPieces(es);
    }
  }

  lemma {:induction false} ParsePiecesConcat(pieces: seq<string>, more: seq<string>)
    ensures ParsePieces(pieces + more) == ParsePieces(pieces) + ParsePieces(more)
  {
    if pieces == [] {
      assert pieces + more == more;
    } else {
      assert (pieces + more)[1..] == pieces[1..] + more;
      ParsePiecesConcat(pieces[1..], more);
    }
  }

  /** Each piece is read for itself: blank ones and those without a colon are passed over. */
  lemma PieceIsRead(before: seq<string>, lead: string, body: string, tail: string, after: seq<string>)
    requires AllSpace(lead) && AllSpace(tail) && Trimmed(body)
    requires forall p :: p in before + [lead + body + tail] + after ==> ',' !in p
    ensures Parse(Join(before + [lead + body + tail] + after, ',')) ==
              ParsePieces(before) +
              (if body == "" || ParseEntry(body).None? then [] else [ParseEntry(body).value]) +
              ParsePieces(after)
  {
    var piece := lead + body + tail;
    SplitJoin(before + [piece] + after, ',');
    ParsePiecesConcat(before + [piece], after);
    ParsePiecesConcat(before, [piece]);
    TrimTakesOffSpace(lead, body, tail);
    ParseOne(piece);
  }

  /** A manifest survives printing and parsing exactly when every entry is canonical. */
  lemma RoundTripIffCanonical(es: seq<Entry>)
    ensures Parse(Print(es)) == es <==> (forall e :: e in es ==> Canonical(e))
  {
    if forall e :: e in es ==> Canonical(e) {
      CanonicalRoundTrip(es);
    }
    if Parse(Print(es)) == es {
      forall e | e in es ensures Canonical(e) {
        PiecesAreCanonical(Split(Print(es), ','), e);
      }
    }
  }

  // ── Seeding ─────────────────────────────────────────────────────────────────

  function SeedAll(t: Tables, es: seq<Entry>): Tables
    decreases |es|
  {
    if es == [] then t else SeedAll(SeedManifest(t, es[0].serial, es[0].model, es[0].token), es[1..])
  }

  lemma {:induction false} SeedAllAppend(t: Tables, es: seq<Entry>, e: Entry)
    ensures SeedAll(t, es + [e]) == SeedManifest(SeedAll(t, es), e.serial, e.model, e.token)
    decreases |es|
  {
    if es == [] {
      assert es + [e] == [e];
    } else {
      assert (es + [e])[1..] == es[1..] + [e];
      SeedAllAppend(SeedManifest(t, es[0].serial, es[0].model, es[0].token), es[1..], e);
    }
  }

  lemma {:induction false} ParsePiecesAppend(pieces: seq<string>, piece: string)
    ensures ParsePieces(pieces + [piece]) == ParsePieces(pieces) + ParsePieces([piece])
  {
    if pieces == [] {
      assert pieces + [piece] == [piece];
    } else {
      assert (pieces + [piece])[1..] == pieces[1..] + [piece];
      ParsePiecesAppend(pieces[1..], piece);
    }
  }

  lemma ParseOneMore(t: Tables, pieces: seq<string>, i: nat)
    requires i < |pieces|
    ensures var entry := Trim(pieces[i]);
            var before, after := ParsePieces(pieces[..i]), ParsePieces(pieces[..i + 1]);
            if entry == "" || ParseEntry(entry).None? then after == before
            else
              var e := ParseEntry(entry).value;
              && |after| == |before| + 1
              && SeedAll(t, after) == SeedManifest(SeedAll(t, before), e.serial, e.model, e.token)
  {
    assert pieces[..i + 1] == pieces[..i] + [pieces[i]];
    ParsePiecesAppend(pieces[..i], pieces[i]);
    ParseOne(pieces[i]);
    var entry := Trim(pieces[i]);
    if entry != "" && ParseEntry(entry).Some? {
      SeedAllAppend(t, ParsePieces(pieces[..i]), ParseEntry(entry).value);
    }
  }

  /** The start-up loop: one piece at a time, unreadable ones skipped, seeded entries counted. */
  method SeedFromText(store: SqliteDeviceStore, text: string) returns (count: nat)
    requires store.journal.None?
    modifies store`manifest
    ensures store.Contents() == SeedAll(old(store.Contents()), Parse(text))
    ensures count == |Parse(text)|
  {
    var pieces := Split(text, ',');
    ghost var t := store.Contents();
    count := 0;
    var i := 0;
    while i < |pieces|
      invariant 0 <= i <= |pieces|
      invariant store.Contents() == SeedAll(t, ParsePieces(pieces[..i]))
      invariant count == |ParsePieces(pieces[..i])|
    {
      ParseOneMore(t, pieces, i);
      var entry := Trim(pieces[i]);
      i := i + 1;
      if entry == "" {
        continue;
      }
      var parsed := ParseEntry(entry);
      if parsed.None? {
        continue;
      }
      store.SeedManifest(parsed.value.serial, parsed.value.model, parsed.value.token);
      count := count + 1;
    }
    assert pieces[..i] == pieces;
  }

  /** The first entry for a serial. */
  function FirstFor(es: seq<Entry>, serial: string): Option<Entry> {
    if es == [] then None
    else if es[0].serial == serial then Some(es[0])
    else FirstFor(es[1..], serial)
  }

  /** An existing row wins over the text, and the first entry of a serial over later ones. */
  lemma {:induction false} FirstEntryWins(t: Tables, es: seq<Entry>, serial: string)
    ensures var t' := SeedAll(t, es);
            && (serial in t'.manifest <==> serial in t.manifest || FirstFor(es, serial).Some?)
            && (serial in t.manifest ==> t'.manifest[serial] == t.manifest[serial])
            && (serial !in t.manifest && serial in t'.manifest ==>
                  var e := FirstFor(es, serial).value; t'.manifest[serial] == ManifestRow(e.model, e.token, None))
            && t'.pre == t.pre && t'.devices == t.devices
    decreases |es|
  {
    if es != [] {
      FirstEntryWins(SeedManifest(t, es[0].serial, es[0].model, es[0].token), es[1..], serial);
    }
  }

  lemma {:induction false} SeedingKnownSerialsIsIdle(t: Tables, es: seq<Entry>)
    requires forall e :: e in es ==> e.serial in t.manifest
    ensures SeedAll(t, es) == t
  {
    if es != [] {
      SeedingKnownSerialsIsIdle(t, es[1..]);
    }
  }

  lemma {:induction false} RunKeepsManifestRow(v: Server, steps: seq<ServerStep>, serial: string)
    requires serial in v.tables.manifest
    ensures var t := ServerRun(v, steps).tables;
            && serial in t.manifest && t.manifest[serial].token == v.tables.manifest[serial].token
            && t.manifest[serial].model == v.tables.manifest[serial].model
            && (Provisioned(v.tables, serial) ==> Provisioned(t, serial))
    decreases |steps|
  {
    if steps != [] {
      StepKeepsManifestRow(v, steps[0], serial);
      RunKeepsManifestRow(ServerNext(v, steps[0]), steps[1..], serial);
    }
  }

  /**
   * Restarting with the same text after any run changes no row at all: no entry is added and no spent
   * token is revived.
   */
  lemma ReseedingAfterAnyRunIsIdle(v: Server, text: string, steps: seq<ServerStep>)
    ensures var t := ServerRun(v.(tables := SeedAll(v.tables, Parse(text))), steps).tables;
            SeedAll(t, Parse(text)) == t
  {
    var es := Parse(text);
    var v1 := v.(tables := SeedAll(v.tables, es));
    forall e | e in es ensures e.serial in ServerRun(v1, steps).tables.manifest {
      FirstEntryWins(v.tables, es, e.serial);
      FirstForFinds(es, e);
      RunKeepsManifestRow(v1, steps, e.serial);
    }
    SeedingKnownSerialsIsIdle(ServerRun(v1, steps).tables, es);
  }

  lemma {:induction false} FirstForFinds(es: seq<Entry>, e: Entry)
    requires e in es
    ensures FirstFor(es, e.serial).Some?
  {
    if es[0] != e {
      FirstForFinds(es[1..], e);
    }
  }
}

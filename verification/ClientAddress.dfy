/** The client address behind a known number of trusted proxies, taken from X-Forwarded-For. */
module ClientAddress {
  import opened Text

  // ----- Splitting at commas -----

  function Split(s: string): (pieces: seq<string>)
    ensures pieces != []
  {
    if s == "" then [""]
    else
      var rest := Split(s[1..]);
      if s[0] == ',' then [""] + rest else [[s[0]] + rest[0]] + rest[1..]
  }

  function Join(pieces: seq<string>): string
    requires pieces != []
  {
    if |pieces| == 1 then pieces[0] else pieces[0] + "," + Join(pieces[1..])
  }

  predicate CommaFree(s: string) {
    ',' !in s
  }

  /** `Split` cuts at every comma and nowhere else. */
  lemma {:induction false} SplitJoins(s: string)
    ensures Join(Split(s)) == s
    ensures forall i :: 0 <= i < |Split(s)| ==> CommaFree(Split(s)[i])
  {
    if s != "" {
      SplitJoins(s[1..]);
      var rest := Split(s[1..]);
      assert s == [s[0]] + s[1..];
      if s[0] == ',' {
        assert ([""] + rest)[1..] == rest;
      } else if |rest| > 1 {
        assert ([[s[0]] + rest[0]] + rest[1..])[1..] == rest[1..];
      }
    }
  }

  lemma Extended(c: char, first: seq<string>, second: seq<string>)
    requires first != []
    ensures (first + second)[0] == first[0] && (first + second)[1..] == first[1..] + second
    ensures [[c] + first[0]] + (first[1..] + second) == ([[c] + first[0]] + first[1..]) + second
    ensures [""] + (first + second) == ([""] + first) + second
  {
  }

  lemma {:induction false} SplitConcat(a: string, b: string)
    ensures Split(a + "," + b) == Split(a) + Split(b)
  {
    var s := a + "," + b;
    if a == "" {
      assert s[0] == ',' && s[1..] == b;
    } else {
      SplitConcat(a[1..], b);
      assert s[0] == a[0] && s[1..] == a[1..] + "," + b;
      Extended(a[0], Split(a[1..]), Split(b));
    }
  }

  lemma {:induction false} SplitPiece(s: string)
    requires CommaFree(s)
    ensures Split(s) == [s]
  {
    if s != "" {
      SplitPiece(s[1..]);
      assert s == [s[0]] + s[1..];
    }
  }

  lemma {:induction false} SplitJoined(pieces: seq<string>)
    requires pieces != [] && forall i :: 0 <= i < |pieces| ==> CommaFree(pieces[i])
    ensures Split(Join(pieces)) == pieces
  {
    SplitPiece(pieces[0]);
    if |pieces| > 1 {
      SplitJoined(pieces[1..]);
      SplitConcat(pieces[0], Join(pieces[1..]));
    }
  }

  // ----- The usable parts -----

  function Trims(pieces: seq<string>): seq<string> {
    seq(|pieces|, i requires 0 <= i < |pieces| => TrimSpace(pieces[i]))
  }

  function NonEmpty(s: seq<string>): seq<string> {
    if s == [] then []
    else
      var last := s[|s| - 1];
      NonEmpty(s[..|s| - 1]) + (if last != "" then [last] else [])
  }

  /** The pieces that are not blank, trimmed. */
  function Parts(pieces: seq<string>): seq<string> {
    NonEmpty(Trims(pieces))
  }

  lemma {:induction false} NonEmptyConcat(a: seq<string>, b: seq<string>)
    ensures NonEmpty(a + b) == NonEmpty(a) + NonEmpty(b)
  {
    if b == [] {
      assert a + b == a;
    } else {
      NonEmptyConcat(a, b[..|b| - 1]);
      assert (a + b)[..|a + b| - 1] == a + b[..|b| - 1];
    }
  }

  lemma TrimsConcat(a: seq<string>, b: seq<string>)
    ensures Trims(a + b) == Trims(a) + Trims(b)
  {
  }

  lemma PartsConcat(a: seq<string>, b: seq<string>)
    ensures Parts(a + b) == Parts(a) + Parts(b)
  {
    TrimsConcat(a, b);
    NonEmptyConcat(Trims(a), Trims(b));
  }

  /** Where nothing is empty, nothing is dropped. */
  lemma {:induction false} NonEmptyKept(s: seq<string>)
    requires "" !in s
    ensures NonEmpty(s) == s
  {
    if s != [] {
      NonEmptyKept(s[..|s| - 1]);
      assert s == s[..|s| - 1] + [s[|s| - 1]];
    }
  }

  lemma NoParts()
    ensures Parts(Split("")) == []
  {
    assert Split("") == [""] && TrimSpace("") == "";
    assert Trims([""]) == [""] && NonEmpty([""][..0]) == [];
  }

  // ----- The selection -----

  /** The n-th usable part from the end, if there are that many. */
  function Selected(forwarded: string, socket: string, n: nat): string {
    var parts := Parts(Split(forwarded));
    if n == 0 || |parts| < n then socket else parts[|parts| - n]
  }

  method CollectParts(pieces: seq<string>) returns (parts: seq<string>)
    ensures parts == Parts(pieces)
  {
    parts := [];
    ghost var trims := Trims(pieces);
    for i := 0 to |pieces|
      invariant parts == NonEmpty(trims[..i])
    {
      assert trims[..i + 1][..i] == trims[..i];
      var trimmed := TrimSpace(pieces[i]);
      assert trimmed == trims[i];
      if trimmed != "" {
        parts := parts + [trimmed];
      }
    }
    assert trims[..|pieces|] == trims;
  }

  /** `Header.Get`: a header may come in several lines, of which only the first is read. */
  function Get(lines: seq<string>): string {
    if lines == [] then "" else lines[0]
  }

  /** `lines` are the header's lines as they arrived; `socket` is the peer's own address. */
  method RemoteIP(lines: seq<string>, socket: string, n: nat) returns (ip: string)
    ensures ip == Selected(Get(lines), socket, n)
  {
    if n == 0 {
      return socket;
    }
    NoParts();
    var forwarded := Get(lines);
    var parts: seq<string> := [];
    if forwarded != "" {
      parts := CollectParts(Split(forwarded));
    }
    if |parts| == 0 {
      return socket;
    }
    if |parts| < n {
      return socket;
    }
    return parts[|parts| - n];
  }

  /** What a chain of proxies appends: comma-free pieces, none blank, with or without space around the address. */
  predicate Appended(pieces: seq<string>) {
    && pieces != [] && (forall i :: 0 <= i < |pieces| ==> CommaFree(pieces[i]))
    && "" !in Trims(pieces)
  }

  /**
   Whatever text the client put in the header itself, the address selected is the first one the trusted
   proxies appended: with n proxies, the one the outermost of them saw.
   */
  lemma ClientTextIsIgnored(prefix: string, pieces: seq<string>, socket: string)
    requires Appended(pieces)
    ensures Selected(prefix + "," + Join(pieces), socket, |pieces|) == TrimSpace(pieces[0])
    ensures Selected(Join(pieces), socket, |pieces|) == TrimSpace(pieces[0])
    ensures forall left, address, right :: AllSpace(left) && AllSpace(right) && Trimmed(address) ==>
              (pieces[0] == left + address + right ==> TrimSpace(pieces[0]) == address)
  {
    assert Split(Join(pieces)) == pieces by { SplitJoined(pieces); }
    assert Parts(Split(prefix + "," + Join(pieces))) == Parts(Split(prefix)) + Parts(pieces) by {
      SplitConcat(prefix, Join(pieces));
      PartsConcat(Split(prefix), pieces);
    }
    NonEmptyKept(Trims(pieces));
    forall left, address, right | AllSpace(left) && AllSpace(right) && Trimmed(address)
      ensures pieces[0] == left + address + right ==> TrimSpace(pieces[0]) == address
    {
      TrimSpaceOf(left, address, right);
    }
  }

  /** The places that hold an address: all but the empty ones. */
  function Filled(s: seq<string>): set<int> {
    set i | 0 <= i < |s| && s[i] != ""
  }

  /** As many are kept as are filled. */
  lemma {:induction false} KeptAreFilled(s: seq<string>)
    ensures |NonEmpty(s)| == |Filled(s)|
  {
    if s != [] {
      var last := |s| - 1;
      KeptAreFilled(s[..last]);
      assert Filled(s) == Filled(s[..last]) + if s[last] != "" then {last} else {};
    }
  }

  /**
   Whatever the header holds, blank pieces included: with fewer filled pieces than proxies, with no header,
   or with no trusted proxy at all, only the socket address counts.
   */
  lemma TooFewPartsFallBack(pieces: seq<string>, socket: string, n: nat)
    requires pieces != [] && forall i :: 0 <= i < |pieces| ==> CommaFree(pieces[i])
    ensures |Filled(Trims(pieces))| < n ==> Selected(Join(pieces), socket, n) == socket
    ensures Selected("", socket, n) == socket
    ensures Selected(Join(pieces), socket, 0) == socket
  {
    SplitJoined(pieces);
    KeptAreFilled(Trims(pieces));
    NoParts();
  }

  // ----- Proxies that extend the header, and proxies that add a line -----

  /** A proxy passes on the address it saw, at the end of the header's first line or as another line. */
  datatype Hop = Hop(address: string, sameLine: bool)

  function Pass(lines: seq<string>, hop: Hop): seq<string> {
    if lines == [] then [hop.address]
    else if hop.sameLine then [lines[0] + "," + hop.address] + lines[1..]
    else lines + [hop.address]
  }

  /** The lines a client sent, as they arrive. */
  function Passed(lines: seq<string>, hops: seq<Hop>): seq<string>
    decreases |hops|
  {
    if hops == [] then lines else Passed(Pass(lines, hops[0]), hops[1..])
  }

  predicate Honest(hops: seq<Hop>) {
    hops != [] && forall h :: h in hops ==> CommaFree(h.address) && TrimSpace(h.address) != ""
  }

  /** The address selected behind the proxies, one for each hop. */
  function Behind(client: seq<string>, hops: seq<Hop>, socket: string): string {
    Selected(Get(Passed(client, hops)), socket, |hops|)
  }

  /** The addresses written at the end of the first line. */
  function Extending(hops: seq<Hop>): seq<string> {
    if hops == [] then []
    else (if hops[0].sameLine then [hops[0].address] else []) + Extending(hops[1..])
  }

  lemma {:induction false} ExtendingSize(hops: seq<Hop>)
    ensures |Extending(hops)| <= |hops|
    ensures |Extending(hops)| == |hops| <==> forall h :: h in hops ==> h.sameLine
  {
    if hops != [] {
      ExtendingSize(hops[1..]);
      assert forall h :: h in hops <==> h == hops[0] || h in hops[1..];
    }
  }

  lemma {:induction false} ExtendingFilled(hops: seq<Hop>)
    requires forall h :: h in hops ==> TrimSpace(h.address) != ""
    ensures "" !in Trims(Extending(hops))
  {
    if hops != [] {
      ExtendingFilled(hops[1..]);
      TrimsConcat(if hops[0].sameLine then [hops[0].address] else [], Extending(hops[1..]));
    }
  }

  lemma SplitPassed(lines: seq<string>, hop: Hop)
    requires lines != [] && CommaFree(hop.address)
    ensures Pass(lines, hop) != []
    ensures Split(Pass(lines, hop)[0]) == Split(lines[0]) + (if hop.sameLine then [hop.address] else [])
  {
    if hop.sameLine {
      SplitConcat(lines[0], hop.address);
      SplitPiece(hop.address);
    }
  }

  lemma Regroup(a: seq<string>, b: seq<string>, c: seq<string>)
    ensures (a + b) + c == a + (b + c)
  {
  }

  lemma {:induction false} FirstLinePassed(lines: seq<string>, hops: seq<Hop>)
    requires lines != [] && forall h :: h in hops ==> CommaFree(h.address)
    ensures Split(Get(Passed(lines, hops))) == Split(lines[0]) + Extending(hops)
    decreases |hops|
  {
    if hops != [] {
      var next, own := Pass(lines, hops[0]), if hops[0].sameLine then [hops[0].address] else [];
      calc {
        Split(Get(Passed(lines, hops)));
        { assert next != []; FirstLinePassed(next, hops[1..]); }
        Split(next[0]) + Extending(hops[1..]);
        { SplitPassed(lines, hops[0]); }
        (Split(lines[0]) + own) + Extending(hops[1..]);
        { Regroup(Split(lines[0]), own, Extending(hops[1..])); }
        Split(lines[0]) + (own + Extending(hops[1..]));
        Split(lines[0]) + Extending(hops);
      }
    }
  }

  lemma UsableParts(line: string, rest: seq<string>, hops: seq<Hop>)
    requires Honest(hops)
    ensures Parts(Split(Get(Passed([line] + rest, hops)))) == Parts(Split(line)) + Trims(Extending(hops))
  {
    FirstLinePassed([line] + rest, hops);
    PartsConcat(Split(line), Extending(hops));
    ExtendingFilled(hops);
    NonEmptyKept(Trims(Extending(hops)));
  }

  lemma {:induction false} ExtendingAll(hops: seq<Hop>)
    requires hops != [] && forall h :: h in hops ==> h.sameLine
    ensures |Extending(hops)| == |hops| && Extending(hops)[0] == hops[0].address
  {
    ExtendingSize(hops);
  }

  /** Where every proxy extends the first line, the client's lines do not matter. */
  lemma ExtendedLineDecides(client: seq<string>, hops: seq<Hop>, socket: string)
    requires Honest(hops) && forall h :: h in hops ==> h.sameLine
    ensures Behind(client, hops, socket) == TrimSpace(hops[0].address)
  {
    ExtendingAll(hops);
    if client == [] {
      NoLine(hops);
      LastParts(Get(Passed(client, hops)), [], hops, socket);
    } else {
      assert client == [client[0]] + client[1..];
      UsableParts(client[0], client[1..], hops);
      LastParts(Get(Passed(client, hops)), Parts(Split(client[0])), hops, socket);
    }
  }

  lemma LastParts(line: string, own: seq<string>, hops: seq<Hop>, socket: string)
    requires hops != [] && |Extending(hops)| == |hops| && Extending(hops)[0] == hops[0].address
    requires Parts(Split(line)) == own + Trims(Extending(hops))
    ensures Selected(line, socket, |hops|) == TrimSpace(hops[0].address)
  {
  }

  lemma NoLine(hops: seq<Hop>)
    requires Honest(hops) && forall h :: h in hops ==> h.sameLine
    ensures Parts(Split(Get(Passed([], hops)))) == Trims(Extending(hops))
  {
    var first, rest := hops[0].address, hops[1..];
    FirstLinePassed([first], rest);
    SplitPiece(first);
    assert Split(Get(Passed([], hops))) == [first] + Extending(rest) == Extending(hops);
    ExtendingFilled(hops);
    NonEmptyKept(Trims(Extending(hops)));
  }

  function Repeat(s: string, n: nat): seq<string> {
    seq(n, i => s)
  }

  /** The client's line: as many copies as it takes to fill up the first line. */
  function OwnLine(hops: seq<Hop>, address: string): string
    requires |Extending(hops)| < |hops|
  {
    Join(Repeat(address, |hops| - |Extending(hops)|))
  }

  lemma RepeatedParts(address: string, n: nat)
    requires CommaFree(address) && TrimSpace(address) != "" && n > 0
    ensures Parts(Split(Join(Repeat(address, n)))) == Repeat(TrimSpace(address), n)
  {
    var own := Repeat(address, n);
    SplitJoined(own);
    assert Trims(own) == Repeat(TrimSpace(address), n);
    NonEmptyKept(Trims(own));
  }

  /** Where some proxy adds a line, a client's own line can bring any address to the place selected. */
  lemma ClientLineDecides(hops: seq<Hop>, socket: string, address: string)
    requires Honest(hops) && |Extending(hops)| < |hops|
    requires CommaFree(address) && TrimSpace(address) != ""
    ensures Behind([OwnLine(hops, address)], hops, socket) == TrimSpace(address)
  {
    var line := OwnLine(hops, address);
    RepeatedParts(address, |hops| - |Extending(hops)|);
    UsableParts(line, [], hops);
    assert [line] + [] == [line];
  }

  lemma OtherAddress(address: string) returns (other: string)
    ensures CommaFree(other) && TrimSpace(other) != "" && TrimSpace(other) != address
  {
    other := if address == "x" then "y" else "x";
    TrimSpaceOf("", other, "");
    assert "" + other + "" == other;
  }

  /**
   Whatever lines a client sends itself, the address selected is the one the outermost trusted proxy saw: this
   is so exactly when every proxy extends the header's first line.
   */
  lemma ClientLinesAreIgnored(hops: seq<Hop>, socket: string)
    requires Honest(hops)
    ensures (forall client :: Behind(client, hops, socket) == TrimSpace(hops[0].address)) <==>
            (forall h :: h in hops ==> h.sameLine)
  {
    if forall h :: h in hops ==> h.sameLine {
      forall client ensures Behind(client, hops, socket) == TrimSpace(hops[0].address) {
        ExtendedLineDecides(client, hops, socket);
      }
    } else {
      var other := OtherAddress(TrimSpace(hops[0].address));
      ExtendingSize(hops);
      ClientLineDecides(hops, socket, other);
    }
  }
}

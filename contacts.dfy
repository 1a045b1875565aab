/** Contact tracking between successive states of a pebble simulation:
    reading contact blocks from the lines of a trajectory file, pairing the
    contacts that persist from one state to the next, and walking the file
    block by block. */
module ContactTracking {
  import opened Wrappers
  import opened Tokens

  /** One contact: the id of the particle touched and the contact point. */
  datatype Contact = Contact(particle: int, x: real, y: real, z: real)

  /** Python's `int()` and `float()` on a token; `None` where they raise. */
  datatype Parsers = Parsers(parseInt: string -> Option<int>, parseFloat: string -> Option<real>)

  /** Why a block could not be read; `line` is the index of the offending
      line. */
  datatype BlockError =
    | MissingLine(line: nat)     // the index is past the end of the file
    | EmptyHeader(line: nat)     // the header has no last token
    | BadCount(line: nat)        // the header's last token is not an integer
    | BadContact(line: nat)      // fewer than five tokens, or a field does not parse
    | NegativeCount(line: nat)   // the header announces fewer than zero contacts

  // ---------------------------------------------------------------------
  // read_block

  /** A contact line: particle id from token 1, coordinates from tokens 2-4
      (token 0 is not used). */
  function ParseContact(p: Parsers, lines: seq<string>, index: nat): (r: Result<Contact, BlockError>)
    ensures r.Ok? <==>
      index < |lines| && var ts := Split(lines[index]);
      && |ts| >= 5 && p.parseInt(ts[1]).Some? && p.parseFloat(ts[2]).Some?
      && p.parseFloat(ts[3]).Some? && p.parseFloat(ts[4]).Some?
    ensures r.Ok? ==> var ts := Split(lines[index]);
      r.value == Contact(p.parseInt(ts[1]).value, p.parseFloat(ts[2]).value,
                         p.parseFloat(ts[3]).value, p.parseFloat(ts[4]).value)
  {
    if index >= |lines| then Err(MissingLine(index))
    else
      var ts := Split(lines[index]);
      if |ts| < 5 then Err(BadContact(index))
      else match (p.parseInt(ts[1]), p.parseFloat(ts[2]), p.parseFloat(ts[3]), p.parseFloat(ts[4]))
        case (Some(id), Some(x), Some(y), Some(z)) => Ok(Contact(id, x, y, z))
        case _ => Err(BadContact(index))
  }

  /** The count announced by the block header: the last token of line
      `start`. */
  function HeaderCount(p: Parsers, lines: seq<string>, start: nat): (r: Result<int, BlockError>)
    ensures r.Ok? <==>
      start < |lines| && |Split(lines[start])| > 0
      && p.parseInt(Split(lines[start])[|Split(lines[start])| - 1]).Some?
    ensures r.Ok? ==> r.value == p.parseInt(Split(lines[start])[|Split(lines[start])| - 1]).value
  {
    if start >= |lines| then Err(MissingLine(start))
    else
      var header := Split(lines[start]);
      if |header| == 0 then Err(EmptyHeader(start))
      else match p.parseInt(header[|header| - 1])
        case None => Err(BadCount(start))
        case Some(n) => Ok(n)
  }

  /** The `n` contacts on lines `from` .. `from + n - 1`, in line order;
      the first line that fails stops the reading. */
  function ContactsFrom(p: Parsers, lines: seq<string>, from: nat, n: nat): (r: Result<seq<Contact>, BlockError>)
    ensures r.Err? ==> r.error.MissingLine? || r.error.BadContact?
    decreases n
  {
    if n == 0 then Ok([])
    else match ContactsFrom(p, lines, from, n - 1)
      case Err(e) => Err(e)
      case Ok(cs) =>
        match ParseContact(p, lines, from + n - 1)
        case Err(e) => Err(e)
        case Ok(c) => Ok(cs + [c])
  }

  /** A block read as written: header, one skipped line, then the contacts;
      the next block starts at `start + 2 + n`, also when `n` is negative
      (then no contact is read). */
  function ReadBlockAsWritten(p: Parsers, lines: seq<string>, start: nat): (r: Result<(seq<Contact>, int), BlockError>)
    ensures r.Ok? ==> HeaderCount(p, lines, start).Ok? && r.value.1 == start + 2 + HeaderCount(p, lines, start).value
  {
    match HeaderCount(p, lines, start)
    case Err(e) => Err(e)
    case Ok(n) =>
      if n < 0 then Ok(([], start + 2 + n))
      else match ContactsFrom(p, lines, start + 2, n)
        case Err(e) => Err(e)
        case Ok(cs) => Ok((cs, start + 2 + n))
  }

  /** A header announcing -2 contacts sends the reader back to the header
      itself: the block walk then reads the same block forever. */
  lemma CountMinusTwoStalls(p: Parsers, lines: seq<string>, start: nat)
    requires HeaderCount(p, lines, start) == Ok(-2)
    ensures ReadBlockAsWritten(p, lines, start) == Ok(([], start))
  {
  }

  /** Every negative count as written: an empty block, after which the walk
      goes on at start + 2 + n. For -1 that is the skipped second line, read
      next as a header; for -2 it is the header itself; for -3 and below it
      lies before the header, and below -(start + 2) it is negative, which
      Python reads from the end of the file. The corrected reader ends the
      walk on all of them. */
  lemma NegativeCountsAsWritten(p: Parsers, lines: seq<string>, start: nat)
    requires HeaderCount(p, lines, start).Ok? && HeaderCount(p, lines, start).value < 0
    ensures var n := HeaderCount(p, lines, start).value;
      && ReadBlockAsWritten(p, lines, start) == Ok(([], start + 2 + n))
      && (n == -1 ==> ReadBlockAsWritten(p, lines, start).value.1 == start + 1)
      && (n <= -3 ==> ReadBlockAsWritten(p, lines, start).value.1 < start)
      && (n < -(start + 2) ==> ReadBlockAsWritten(p, lines, start).value.1 < 0)
      && BlockAt(p, lines, start) == Err(NegativeCount(start))
  {
  }

  /** The block as read once a negative count is an error. */
  function BlockAt(p: Parsers, lines: seq<string>, start: nat): (r: Result<(seq<Contact>, nat), BlockError>)
    ensures r.Ok? ==> r.value.1 >= start + 2
  {
    match HeaderCount(p, lines, start)
    case Err(e) => Err(e)
    case Ok(n) =>
      if n < 0 then Err(NegativeCount(start))
      else match ContactsFrom(p, lines, start + 2, n)
        case Err(e) => Err(e)
        case Ok(cs) => Ok((cs, start + 2 + n))
  }

  /** The corrected reader agrees with the one as written on every
      non-negative count. */
  lemma BlockAtAgreesOnNonNegativeCounts(p: Parsers, lines: seq<string>, start: nat)
    requires HeaderCount(p, lines, start).Ok? && HeaderCount(p, lines, start).value >= 0
    ensures BlockAt(p, lines, start).Ok? <==> ReadBlockAsWritten(p, lines, start).Ok?
    ensures BlockAt(p, lines, start).Ok? ==>
      BlockAt(p, lines, start).value.0 == ReadBlockAsWritten(p, lines, start).value.0
      && BlockAt(p, lines, start).value.1 == ReadBlockAsWritten(p, lines, start).value.1
  {
  }

  /** Reading `n` contacts succeeds exactly when the `n` lines exist and
      each holds a contact, and then the i-th contact is the one on line
      `from + i`. */
  lemma {:induction false} ContactsFromIff(p: Parsers, lines: seq<string>, from: nat, n: nat)
    ensures ContactsFrom(p, lines, from, n).Ok? <==>
      forall j :: from <= j < from + n ==> ParseContact(p, lines, j).Ok?
    ensures ContactsFrom(p, lines, from, n).Ok? ==>
      var cs := ContactsFrom(p, lines, from, n).value;
      |cs| == n && forall i :: 0 <= i < n ==> ParseContact(p, lines, from + i) == Ok(cs[i])
    decreases n
  {
    if n > 0 {
      ContactsFromIff(p, lines, from, n - 1);
      var prefix := ContactsFrom(p, lines, from, n - 1);
      var last := ParseContact(p, lines, from + n - 1);
      if prefix.Ok? && last.Ok? {
        var cs := prefix.value + [last.value];
        assert ContactsFrom(p, lines, from, n) == Ok(cs);
        forall i | 0 <= i < n
          ensures ParseContact(p, lines, from + i) == Ok(cs[i])
        {
          if i < n - 1 {
            assert cs[i] == prefix.value[i];
          }
        }
      } else if prefix.Ok? {
        assert !ParseContact(p, lines, from + n - 1).Ok?;
      } else {
        var j :| from <= j < from + n - 1 && !ParseContact(p, lines, j).Ok?;
        assert !ParseContact(p, lines, j).Ok?;
      }
    }
  }

  /** A block read successfully holds exactly the announced number of
      contacts, taken from the lines after the skipped one, and the next
      block starts right after them. The line after the header is never
      looked at. */
  lemma BlockShape(p: Parsers, lines: seq<string>, start: nat)
    requires BlockAt(p, lines, start).Ok?
    ensures var (cs, next) := BlockAt(p, lines, start).value;
      && HeaderCount(p, lines, start) == Ok(|cs|)
      && next == start + 2 + |cs|
      && forall i :: 0 <= i < |cs| ==> ParseContact(p, lines, start + 2 + i) == Ok(cs[i])
  {
    var n := HeaderCount(p, lines, start).value;
    ContactsFromIff(p, lines, start + 2, n);
    if n > 0 {
      assert ParseContact(p, lines, start + 2 + (n - 1)).Ok?;
    }
  }

  /** Changing the line after the header does not change the block. */
  lemma SecondLineIgnored(p: Parsers, lines: seq<string>, start: nat, other: string)
    requires start + 1 < |lines|
    ensures BlockAt(p, lines[start + 1 := other], start) == BlockAt(p, lines, start)
  {
    var lines' := lines[start + 1 := other];
    assert HeaderCount(p, lines', start) == HeaderCount(p, lines, start);
    var r := HeaderCount(p, lines, start);
    if r.Ok? && r.value >= 0 {
      SameContacts(p, lines, lines', start + 2, r.value);
    }
  }

  lemma {:induction false} SameContacts(p: Parsers, lines: seq<string>, lines': seq<string>, from: nat, n: nat)
    requires |lines| == |lines'|
    requires forall i :: from <= i < |lines| ==> lines[i] == lines'[i]
    ensures ContactsFrom(p, lines, from, n) == ContactsFrom(p, lines', from, n)
    decreases n
  {
    if n > 0 {
      SameContacts(p, lines, lines', from, n - 1);
      assert ParseContact(p, lines, from + n - 1) == ParseContact(p, lines', from + n - 1);
    }
  }

  /** `read_block`: returns the contacts and the index of the line after
      the block. */
  method ReadBlock(p: Parsers, lines: seq<string>, start: nat) returns (r: Result<(seq<Contact>, nat), BlockError>)
    ensures r == BlockAt(p, lines, start)
  {
    var count := HeaderCount(p, lines, start);
    if count.Err? {
      return Err(count.error);
    }
    var n := count.value;
    if n < 0 {
      return Err(NegativeCount(start));
    }
    var current := start + 2;
    var contacts: seq<Contact> := [];
    var i := 0;
    while i < n
      invariant 0 <= i <= n
      invariant ContactsFrom(p, lines, current, i) == Ok(contacts)
    {
      var c := ParseContact(p, lines, current + i);
      if c.Err? {
        assert ContactsFrom(p, lines, current, i + 1) == Err(c.error);
        SkipFailure(p, lines, current, i + 1, n);
        return Err(c.error);
      }
      contacts := contacts + [c.value];
      i := i + 1;
    }
    return Ok((contacts, current + n));
  }

  /** Once reading fails, reading further lines keeps the same error. */
  lemma {:induction false} SkipFailure(p: Parsers, lines: seq<string>, from: nat, k: nat, n: nat)
    requires k <= n && ContactsFrom(p, lines, from, k).Err?
    ensures ContactsFrom(p, lines, from, n) == ContactsFrom(p, lines, from, k)
    decreases n - k
  {
    if k < n {
      SkipFailure(p, lines, from, k, n - 1);
    }
  }

  // ---------------------------------------------------------------------
  // find_persistent_contacts

  /** The index in `contacts` of the first contact with this particle id,
      if any. */
  function FirstWithId(contacts: seq<Contact>, id: int): (r: Option<nat>)
    ensures r.Some? ==>
      (&& r.value < |contacts| && contacts[r.value].particle == id
       && forall j :: 0 <= j < r.value ==> contacts[j].particle != id)
    ensures r.None? <==> forall j :: 0 <= j < |contacts| ==> contacts[j].particle != id
    decreases |contacts|
  {
    if |contacts| == 0 then None
    else if contacts[0].particle == id then Some(0)
    else match FirstWithId(contacts[1..], id)
      case None => None
      case Some(k) => Some(k + 1)
  }

  /** Each contact of the first state paired with the first contact of the
      second state touching the same particle; unmatched contacts dropped. */
  function PersistentPairs(contacts1: seq<Contact>, contacts2: seq<Contact>): seq<(Contact, Contact)>
    decreases |contacts1|
  {
    if |contacts1| == 0 then []
    else
      var rest := PersistentPairs(contacts1[..|contacts1| - 1], contacts2);
      var c1 := contacts1[|contacts1| - 1];
      match FirstWithId(contacts2, c1.particle)
      case None => rest
      case Some(k) => rest + [(c1, contacts2[k])]
  }

  /** `find_persistent_contacts` */
  method FindPersistentContacts(contacts1: seq<Contact>, contacts2: seq<Contact>) returns (persistent: seq<(Contact, Contact)>)
    ensures persistent == PersistentPairs(contacts1, contacts2)
  {
    persistent := [];
    var i := 0;
    while i < |contacts1|
      invariant 0 <= i <= |contacts1|
      invariant persistent == PersistentPairs(contacts1[..i], contacts2)
    {
      var c1 := contacts1[i];
      var j := 0;
      while j < |contacts2|
        invariant 0 <= j <= |contacts2|
        invariant forall k :: 0 <= k < j ==> contacts2[k].particle != c1.particle
      {
        if c1.particle == contacts2[j].particle {
          break;
        }
        j := j + 1;
      }
      assert contacts1[..i + 1][..i] == contacts1[..i];
      if j < |contacts2| {
        assert FirstWithId(contacts2, c1.particle) == Some(j);
        persistent := persistent + [(c1, contacts2[j])];
      }
      i := i + 1;
    }
    assert contacts1[..|contacts1|] == contacts1;
  }

  /** Whether some contact of `contacts` touches the particle. */
  predicate HasId(contacts: seq<Contact>, id: int) {
    exists j :: 0 <= j < |contacts| && contacts[j].particle == id
  }

  /** The contacts of the first state that have a partner, in order. */
  function Matched(contacts1: seq<Contact>, contacts2: seq<Contact>): (r: seq<Contact>)
    ensures |r| <= |contacts1|
    decreases |contacts1|
  {
    if |contacts1| == 0 then []
    else
      var rest := Matched(contacts1[..|contacts1| - 1], contacts2);
      var c1 := contacts1[|contacts1| - 1];
      if HasId(contacts2, c1.particle) then rest + [c1] else rest
  }

  function Firsts(pairs: seq<(Contact, Contact)>): seq<Contact>
    decreases |pairs|
  {
    if |pairs| == 0 then [] else Firsts(pairs[..|pairs| - 1]) + [pairs[|pairs| - 1].0]
  }

  /** The first components of the pairs are exactly the matched contacts of
      the first state, in their order; so there are at most as many pairs as
      contacts in the first state. */
  lemma {:induction false} PairsFollowFirstState(contacts1: seq<Contact>, contacts2: seq<Contact>)
    ensures Firsts(PersistentPairs(contacts1, contacts2)) == Matched(contacts1, contacts2)
    ensures |PersistentPairs(contacts1, contacts2)| <= |contacts1|
    decreases |contacts1|
  {
    if |contacts1| > 0 {
      var init := contacts1[..|contacts1| - 1];
      PairsFollowFirstState(init, contacts2);
      var c1 := contacts1[|contacts1| - 1];
      var rest := PersistentPairs(init, contacts2);
      match FirstWithId(contacts2, c1.particle)
      case None =>
      case Some(k) =>
        var pairs := rest + [(c1, contacts2[k])];
        assert pairs[..|pairs| - 1] == rest;
    }
  }

  /** Every pair joins a contact of the first state to the first contact of
      the second state with the same particle id. */
  lemma {:induction false} PairsAreFirstMatches(contacts1: seq<Contact>, contacts2: seq<Contact>)
    ensures forall q :: q in PersistentPairs(contacts1, contacts2) ==>
      (&& q.0 in contacts1 && q.1 in contacts2 && q.0.particle == q.1.particle
       && exists k :: FirstWithId(contacts2, q.0.particle) == Some(k) && q.1 == contacts2[k])
    decreases |contacts1|
  {
    if |contacts1| > 0 {
      var init := contacts1[..|contacts1| - 1];
      PairsAreFirstMatches(init, contacts2);
      assert forall c :: c in init ==> c in contacts1;
    }
  }

  /** A contact of the first state is paired exactly when the second state
      has a contact on the same particle. */
  lemma {:induction false} PairedIffMatchExists(contacts1: seq<Contact>, contacts2: seq<Contact>, c: Contact)
    requires c in contacts1
    ensures c in Firsts(PersistentPairs(contacts1, contacts2)) <==> HasId(contacts2, c.particle)
  {
    PairsFollowFirstState(contacts1, contacts2);
    MatchedMembers(contacts1, contacts2, c);
  }

  lemma {:induction false} MatchedMembers(contacts1: seq<Contact>, contacts2: seq<Contact>, c: Contact)
    ensures c in Matched(contacts1, contacts2) <==> c in contacts1 && HasId(contacts2, c.particle)
    decreases |contacts1|
  {
    if |contacts1| > 0 {
      var init := contacts1[..|contacts1| - 1];
      MatchedMembers(init, contacts2, c);
      assert contacts1 == init + [contacts1[|contacts1| - 1]];
    }
  }

  // ---------------------------------------------------------------------
  // The block walk of analyze_file

  /** The index of the first non-blank line at or after `idx`, or the end
      of the file. */
  function SkipBlank(lines: seq<string>, idx: nat): (j: nat)
    ensures idx <= j && (j < |lines| ==> !IsBlank(lines[j]))
    ensures j >= |lines| ==> j == if idx <= |lines| then |lines| else idx
    ensures forall i :: idx <= i < j && i < |lines| ==> IsBlank(lines[i])
    decreases |lines| - idx
  {
    if idx >= |lines| || !IsBlank(lines[idx]) then idx else SkipBlank(lines, idx + 1)
  }

  /** The blocks read from `idx` on, and the error that ended the reading,
      if one did. */
  datatype Scan = Scan(blocks: seq<seq<Contact>>, failure: Option<(nat, BlockError)>)

  function ReadBlocks(p: Parsers, lines: seq<string>, idx: nat): Scan
    decreases |lines| - idx
  {
    var j := SkipBlank(lines, idx);
    if j >= |lines| then Scan([], None)
    else match BlockAt(p, lines, j)
      case Err(e) => Scan([], Some((j, e)))
      case Ok((cs, next)) =>
        var rest := ReadBlocks(p, lines, next);
        Scan([cs] + rest.blocks, rest.failure)
  }

  /** The persistence lists of consecutive blocks, the empty ones left
      out. */
  function PersistenceSeries(blocks: seq<seq<Contact>>): seq<seq<(Contact, Contact)>>
    decreases |blocks|
  {
    if |blocks| < 2 then []
    else
      var earlier := PersistenceSeries(blocks[..|blocks| - 1]);
      var pairs := PersistentPairs(blocks[|blocks| - 2], blocks[|blocks| - 1]);
      if pairs == [] then earlier else earlier + [pairs]
  }

  /** Only consecutive blocks are compared, every list kept is non-empty,
      and there are at most one fewer lists than blocks. */
  lemma {:induction false} SeriesOfConsecutiveBlocks(blocks: seq<seq<Contact>>)
    ensures |PersistenceSeries(blocks)| <= if |blocks| == 0 then 0 else |blocks| - 1
    ensures forall k :: 0 <= k < |PersistenceSeries(blocks)| ==>
      && PersistenceSeries(blocks)[k] != []
      && exists i :: 0 <= i < |blocks| - 1 && PersistenceSeries(blocks)[k] == PersistentPairs(blocks[i], blocks[i + 1])
    decreases |blocks|
  {
    if |blocks| >= 2 {
      var init := blocks[..|blocks| - 1];
      SeriesOfConsecutiveBlocks(init);
      var series := PersistenceSeries(blocks);
      var earlier := PersistenceSeries(init);
      forall k | 0 <= k < |series|
        ensures series[k] != []
        ensures exists i :: 0 <= i < |blocks| - 1 && series[k] == PersistentPairs(blocks[i], blocks[i + 1])
      {
        if k < |earlier| {
          assert series[k] == earlier[k];
          var i :| 0 <= i < |init| - 1 && earlier[k] == PersistentPairs(init[i], init[i + 1]);
          assert init[i] == blocks[i] && init[i + 1] == blocks[i + 1];
        } else {
          var i := |blocks| - 2;
          assert series[k] == PersistentPairs(blocks[i], blocks[i + 1]);
        }
      }
    }
  }

  /** The walk never reports an empty header: blank lines are skipped
      before a block is read. */
  lemma {:induction false} WalkSeesNoEmptyHeader(p: Parsers, lines: seq<string>, idx: nat)
    ensures ReadBlocks(p, lines, idx).failure.Some? ==> !ReadBlocks(p, lines, idx).failure.value.1.EmptyHeader?
    decreases |lines| - idx
  {
    var j := SkipBlank(lines, idx);
    if j < |lines| {
      NoTokensIffBlank(lines[j]);
      assert |Split(lines[j])| > 0;
      var b := BlockAt(p, lines, j);
      if b.Ok? {
        WalkSeesNoEmptyHeader(p, lines, b.value.1);
        WalkStep(p, lines, j);
      } else {
        assert !b.error.EmptyHeader?;
        WalkStops(p, lines, j);
      }
    }
  }

  /** Every block of the walk was read successfully at a non-blank line,
      so the block count is the number of headers read. */
  lemma {:induction false} WalkBlocksAreBlocks(p: Parsers, lines: seq<string>, idx: nat)
    ensures forall k :: 0 <= k < |ReadBlocks(p, lines, idx).blocks| ==>
      exists j :: (idx <= j < |lines| && !IsBlank(lines[j]) && BlockAt(p, lines, j).Ok?
        && BlockAt(p, lines, j).value.0 == ReadBlocks(p, lines, idx).blocks[k])
    decreases |lines| - idx
  {
    var j := SkipBlank(lines, idx);
    if j < |lines| {
      var b := BlockAt(p, lines, j);
      if b.Ok? {
        WalkBlocksAreBlocks(p, lines, b.value.1);
        WalkStep(p, lines, j);
        var scan := ReadBlocks(p, lines, idx);
        var rest := ReadBlocks(p, lines, b.value.1);
        assert scan.blocks == [b.value.0] + rest.blocks;
        forall k | 0 <= k < |scan.blocks|
          ensures exists j' :: (idx <= j' < |lines| && !IsBlank(lines[j']) && BlockAt(p, lines, j').Ok?
            && BlockAt(p, lines, j').value.0 == scan.blocks[k])
        {
          if k > 0 {
            assert scan.blocks[k] == rest.blocks[k - 1];
            var j' :| b.value.1 <= j' < |lines| && !IsBlank(lines[j']) && BlockAt(p, lines, j').Ok?
              && BlockAt(p, lines, j').value.0 == rest.blocks[k - 1];
            assert idx <= j';
          } else {
            assert BlockAt(p, lines, j).value.0 == scan.blocks[0];
          }
        }
      } else {
        assert ReadBlocks(p, lines, idx).blocks == [];
      }
    } else {
      assert ReadBlocks(p, lines, idx).blocks == [];
    }
  }

  /** At a non-blank line holding a block, the walk records it and goes on
      after it. */
  lemma WalkStep(p: Parsers, lines: seq<string>, idx: nat)
    requires idx < |lines| && !IsBlank(lines[idx]) && BlockAt(p, lines, idx).Ok?
    ensures var next := BlockAt(p, lines, idx).value.1;
      ReadBlocks(p, lines, idx) == Scan([BlockAt(p, lines, idx).value.0] + ReadBlocks(p, lines, next).blocks, ReadBlocks(p, lines, next).failure)
  {
  }

  /** At a non-blank line that does not hold a block, the walk stops. */
  lemma WalkStops(p: Parsers, lines: seq<string>, idx: nat)
    requires idx < |lines| && !IsBlank(lines[idx]) && BlockAt(p, lines, idx).Err?
    ensures ReadBlocks(p, lines, idx) == Scan([], Some((idx, BlockAt(p, lines, idx).error)))
  {
  }

  /** Appending a block adds the persistence list of the last two blocks,
      when it is non-empty. */
  lemma SeriesAppend(seen: seq<seq<Contact>>, contacts: seq<Contact>)
    ensures PersistenceSeries(seen + [contacts]) ==
      if |seen| == 0 then []
      else
        var pairs := PersistentPairs(seen[|seen| - 1], contacts);
        if pairs == [] then PersistenceSeries(seen) else PersistenceSeries(seen) + [pairs]
  {
    var all := seen + [contacts];
    assert all[..|all| - 1] == seen;
  }

  /** A blank line at the current index leaves the rest of the walk
      unchanged. */
  lemma SkipOneBlank(p: Parsers, lines: seq<string>, idx: nat)
    requires idx < |lines| && IsBlank(lines[idx])
    ensures ReadBlocks(p, lines, idx) == ReadBlocks(p, lines, idx + 1)
  {
  }

  /** The walk from `idx` is what remains of a whole walk once the blocks
      in `seen` have been read. */
  ghost predicate WalkRemains(p: Parsers, lines: seq<string>, idx: nat, seen: seq<seq<Contact>>, whole: Scan) {
    && seen + ReadBlocks(p, lines, idx).blocks == whole.blocks
    && ReadBlocks(p, lines, idx).failure == whole.failure
  }

  /** Reading a block moves it from the remaining walk to the blocks seen. */
  lemma WalkAdvance(p: Parsers, lines: seq<string>, idx: nat, seen: seq<seq<Contact>>, whole: Scan)
    requires idx < |lines| && !IsBlank(lines[idx]) && BlockAt(p, lines, idx).Ok?
    requires WalkRemains(p, lines, idx, seen, whole)
    ensures WalkRemains(p, lines, BlockAt(p, lines, idx).value.1, seen + [BlockAt(p, lines, idx).value.0], whole)
  {
    var (contacts, next) := BlockAt(p, lines, idx).value;
    WalkStep(p, lines, idx);
    assert seen + ([contacts] + ReadBlocks(p, lines, next).blocks) == (seen + [contacts]) + ReadBlocks(p, lines, next).blocks;
  }

  /** A line that holds no block ends the walk with its error. */
  lemma WalkHalt(p: Parsers, lines: seq<string>, idx: nat, seen: seq<seq<Contact>>, whole: Scan)
    requires idx < |lines| && !IsBlank(lines[idx]) && BlockAt(p, lines, idx).Err?
    requires WalkRemains(p, lines, idx, seen, whole)
    ensures seen == whole.blocks && whole.failure == Some((idx, BlockAt(p, lines, idx).error))
  {
    WalkStops(p, lines, idx);
    assert seen + [] == seen;
  }

  /** At the end of the lines the walk is complete. */
  lemma WalkEnd(p: Parsers, lines: seq<string>, idx: nat, seen: seq<seq<Contact>>, whole: Scan)
    requires |lines| <= idx
    requires WalkRemains(p, lines, idx, seen, whole)
    ensures seen == whole.blocks && whole.failure == None
  {
    assert ReadBlocks(p, lines, idx) == Scan([], None);
    assert seen + [] == seen;
  }

  /** One step of the loop below: compares the block just read with the
      previous one and keeps the list of persistent contacts when it is not
      empty. */
  method RecordPersistence(ghost seen: seq<seq<Contact>>, previous: Option<seq<Contact>>,
                           contacts: seq<Contact>, allPersistent: seq<seq<(Contact, Contact)>>)
    returns (updated: seq<seq<(Contact, Contact)>>)
    requires previous == if |seen| == 0 then None else Some(seen[|seen| - 1])
    requires allPersistent == PersistenceSeries(seen)
    ensures updated == PersistenceSeries(seen + [contacts])
  {
    updated := allPersistent;
    if previous.Some? {
      var persistent := FindPersistentContacts(previous.value, contacts);
      if persistent != [] {
        updated := allPersistent + [persistent];
      }
    }
    SeriesAppend(seen, contacts);
  }

  /** The block-walking loop of `analyze_file`: the number of blocks read,
      the non-empty persistence lists of consecutive blocks, and the error
      that stopped the walk, if any. */
  method AnalyzeLines(p: Parsers, lines: seq<string>)
    returns (blockCount: nat, allPersistent: seq<seq<(Contact, Contact)>>, failure: Option<(nat, BlockError)>)
    ensures var scan := ReadBlocks(p, lines, 0);
      && blockCount == |scan.blocks|
      && allPersistent == PersistenceSeries(scan.blocks)
      && failure == scan.failure
  {
    var current := 0;
    var previous: Option<seq<Contact>> := None;
    allPersistent := [];
    blockCount := 0;
    failure := None;
    ghost var seen: seq<seq<Contact>> := [];
    ghost var all := ReadBlocks(p, lines, 0);
    assert seen + all.blocks == all.blocks;
    while current < |lines|
      invariant WalkRemains(p, lines, current, seen, all)
      invariant blockCount == |seen|
      invariant previous == if |seen| == 0 then None else Some(seen[|seen| - 1])
      invariant allPersistent == PersistenceSeries(seen)
      decreases |lines| - current
    {
      if IsBlank(lines[current]) {
        SkipOneBlank(p, lines, current);
        current := current + 1;
        continue;
      }
      var block := ReadBlock(p, lines, current);
      if block.Err? {
        WalkHalt(p, lines, current, seen, all);
        failure := Some((current, block.error));
        return;
      }
      var (contacts, next) := block.value;
      WalkAdvance(p, lines, current, seen, all);
      blockCount := blockCount + 1;
      allPersistent := RecordPersistence(seen, previous, contacts, allPersistent);
      seen := seen + [contacts];
      previous := Some(contacts);
      current := next;
    }
    WalkEnd(p, lines, current, seen, all);
  }
}

/** Block identifiers and the block list of a blob upload: how ids are written by the uploader,
    and a reader that gets them back. */
module BlockIds {

  import opened Options
  import opened Sequences

  // ----- Decimal, right-justified in six columns -----

  function Digit(d: nat): char
    requires d < 10
  {
    ('0' as int + d) as char
  }

  function Decimal(n: nat): (text: string)
    ensures |text| >= 1
  {
    if n < 10 then [Digit(n)] else Decimal(n / 10) + [Digit(n % 10)]
  }

  function Spaces(count: nat): (text: string)
    ensures |text| == count
  {
    if count == 0 then "" else Spaces(count - 1) + " "
  }

  // sprintf("%6u"): at least six columns, padded with spaces on the left.
  function SixColumns(n: nat): string {
    if |Decimal(n)| >= 6 then Decimal(n) else Spaces(6 - |Decimal(n)|) + Decimal(n)
  }

  predicate IsDigit(c: char) {
    '0' <= c <= '9'
  }

  function ReadDecimal(text: string): Option<nat> {
    if text == "" || !IsDigit(text[|text| - 1]) then None
    else
      var last := text[|text| - 1] as int - '0' as int;
      if |text| == 1 then Some(last)
      else
        match ReadDecimal(text[..|text| - 1])
        case None => None
        case Some(high) => Some(10 * high + last)
  }

  function ReadColumns(text: string): Option<nat> {
    if text != "" && text[0] == ' ' then ReadColumns(text[1..]) else ReadDecimal(text)
  }

  lemma {:induction false} DecimalReadsBack(n: nat)
    ensures ReadDecimal(Decimal(n)) == Some(n)
    ensures forall c <- Decimal(n) :: IsDigit(c)
  {
    if n >= 10 {
      DecimalReadsBack(n / 10);
      assert Decimal(n)[..|Decimal(n)| - 1] == Decimal(n / 10);
    }
  }

  lemma {:induction false} ColumnsReadBack(count: nat, n: nat)
    ensures ReadColumns(Spaces(count) + Decimal(n)) == Some(n)
  {
    DecimalReadsBack(n);
    if count == 0 {
      assert Spaces(0) + Decimal(n) == Decimal(n);
      assert IsDigit(Decimal(n)[0]);
    } else {
      ColumnsReadBack(count - 1, n);
      SpacesFromTheFront(count);
      var tail := Spaces(count - 1) + Decimal(n);
      assert Spaces(count) + Decimal(n) == " " + tail;
      assert (" " + tail)[1..] == tail;
    }
  }

  lemma {:induction false} SpacesFromTheFront(count: nat)
    requires count > 0
    ensures Spaces(count) == " " + Spaces(count - 1)
  {
    if count > 1 {
      SpacesFromTheFront(count - 1);
    }
  }

  lemma {:induction false} DecimalLength(n: nat, columns: nat)
    requires 1 <= columns <= 6 && n < [1, 10, 100, 1000, 10000, 100000, 1000000][columns]
    ensures |Decimal(n)| <= columns
  {
    if n >= 10 {
      DecimalLength(n / 10, columns - 1);
    }
  }

  // ----- Base64, RFC 4648 section 4, on whole groups of three bytes -----

  function SextetChar(v: nat): char
    requires v < 64
  {
    if v < 26 then ('A' as int + v) as char
    else if v < 52 then ('a' as int + (v - 26)) as char
    else if v < 62 then ('0' as int + (v - 52)) as char
    else if v == 62 then '+'
    else '/'
  }

  function CharSextet(c: char): Option<nat> {
    if 'A' <= c <= 'Z' then Some(c as int - 'A' as int)
    else if 'a' <= c <= 'z' then Some(c as int - 'a' as int + 26)
    else if '0' <= c <= '9' then Some(c as int - '0' as int + 52)
    else if c == '+' then Some(62)
    else if c == '/' then Some(63)
    else None
  }

  type Octet = n: nat | n < 256
  type Sextet = n: nat | n < 64

  // Every three octets become four sextets.
  function Sextets(octets: seq<Octet>): (r: seq<Sextet>)
    requires |octets| % 3 == 0
    ensures |r| == |octets| / 3 * 4
  {
    if octets == [] then []
    else
      var a: nat, b: nat, c: nat := octets[0], octets[1], octets[2];
      [a / 4, a % 4 * 16 + b / 16, b % 16 * 4 + c / 64, c % 64] + Sextets(octets[3..])
  }

  function Octets(sextets: seq<Sextet>): (r: seq<Octet>)
    requires |sextets| % 4 == 0
    ensures |r| == |sextets| / 4 * 3
  {
    if sextets == [] then []
    else
      var p: nat, q: nat, r: nat, s: nat := sextets[0], sextets[1], sextets[2], sextets[3];
      [p * 4 + q / 16, q % 16 * 16 + r / 4, r % 4 * 64 + s] + Octets(sextets[4..])
  }

  // Three octets are recovered from their four sextets.
  lemma SextetsRecombine(a: Octet, b: Octet, c: Octet)
    ensures a / 4 < 64 && a % 4 * 16 + b / 16 < 64 && b % 16 * 4 + c / 64 < 64
    ensures a / 4 * 4 + (a % 4 * 16 + b / 16) / 16 == a
    ensures (a % 4 * 16 + b / 16) % 16 * 16 + (b % 16 * 4 + c / 64) / 4 == b
    ensures (b % 16 * 4 + c / 64) % 4 * 64 + c % 64 == c
  {
  }

  lemma {:induction false} SextetsGroupBack(octets: seq<Octet>)
    requires |octets| % 3 == 0
    ensures Octets(Sextets(octets)) == octets
  {
    if octets != [] {
      SextetsGroupBack(octets[3..]);
      SextetsRecombine(octets[0], octets[1], octets[2]);
      assert Sextets(octets)[4..] == Sextets(octets[3..]);
      assert octets == [octets[0], octets[1], octets[2]] + octets[3..];
    }
  }

  function Chars(sextets: seq<Sextet>): (text: string)
    ensures |text| == |sextets|
  {
    if sextets == [] then "" else [SextetChar(sextets[0])] + Chars(sextets[1..])
  }

  function ReadChars(text: string): Option<seq<Sextet>> {
    if text == "" then Some([])
    else
      match (CharSextet(text[0]), ReadChars(text[1..]))
      case (Some(v), Some(rest)) => Some([v] + rest)
      case _ => None
  }

  lemma {:induction false} CharsReadBack(sextets: seq<Sextet>)
    ensures ReadChars(Chars(sextets)) == Some(sextets)
    ensures '<' !in Chars(sextets)
  {
    if sextets != [] {
      CharsReadBack(sextets[1..]);
      assert Chars(sextets)[1..] == Chars(sextets[1..]);
      assert [sextets[0]] + sextets[1..] == sextets;
    }
  }

  function Encode(octets: seq<Octet>): string
    requires |octets| % 3 == 0
  {
    Chars(Sextets(octets))
  }

  function Decode(text: string): Option<seq<Octet>> {
    match ReadChars(text)
    case None => None
    case Some(sextets) => if |sextets| % 4 == 0 then Some(Octets(sextets)) else None
  }

  lemma EncodingDecodesBack(octets: seq<Octet>)
    requires |octets| % 3 == 0
    ensures Decode(Encode(octets)) == Some(octets)
    ensures '<' !in Encode(octets)
    ensures |Encode(octets)| == |octets| / 3 * 4
  {
    SextetsGroupBack(octets);
    CharsReadBack(Sextets(octets));
  }

  predicate FitsOctets(text: string) {
    forall i :: 0 <= i < |text| ==> text[i] as nat < 256
  }

  // The buffer sprintf fills: one octet a character.
  function AsOctets(text: string): (r: seq<Octet>)
    requires FitsOctets(text)
    ensures |r| == |text|
  {
    if text == "" then [] else var octet: Octet := text[0] as nat; [octet] + AsOctets(text[1..])
  }

  function AsText(octets: seq<Octet>): string {
    if octets == [] then "" else [octets[0] as char] + AsText(octets[1..])
  }

  lemma {:induction false} OctetsReadBack(text: string)
    requires FitsOctets(text)
    ensures AsText(AsOctets(text)) == text
  {
    if text != "" {
      OctetsReadBack(text[1..]);
    }
  }

  // ----- Block ids -----

  const MAX_BLOCK_ID: nat := 49999

  lemma ColumnsFit(id: nat)
    requires id <= MAX_BLOCK_ID
    ensures |SixColumns(id)| == 6
    ensures FitsOctets(SixColumns(id))
    ensures ReadColumns(SixColumns(id)) == Some(id)
  {
    hide Decimal, ReadColumns, ReadDecimal;
    DecimalLength(id, 6);
    DecimalReadsBack(id);
    var padding := 6 - |Decimal(id)|;
    assert SixColumns(id) == Spaces(padding) + Decimal(id) by {
      assert Spaces(0) + Decimal(id) == Decimal(id);
    }
    SpacesAreSpaces(padding);
    ColumnsReadBack(padding, id);
    TextFits(Spaces(padding), Decimal(id));
  }

  lemma TextFits(spaces: string, digits: string)
    requires (forall c <- spaces :: c == ' ') && (forall c <- digits :: IsDigit(c))
    ensures FitsOctets(spaces + digits)
  {
    var text := spaces + digits;
    forall i | 0 <= i < |text| ensures text[i] as nat < 256 {
      assert text[i] in spaces || text[i] in digits;
    }
  }

  lemma {:induction false} SpacesAreSpaces(count: nat)
    ensures forall c <- Spaces(count) :: c == ' '
  {
    if count > 0 {
      SpacesAreSpaces(count - 1);
    }
  }

  // The name of a block: the six columns in Base64.
  function Token(id: nat): string {
    if id > MAX_BLOCK_ID then "" else ColumnsFit(id); Encode(AsOctets(SixColumns(id)))
  }

  // What Blob_UploadBlock writes for a block: None when it refuses the id.
  function BlockId(id: nat): Option<string> {
    if id > MAX_BLOCK_ID then None else Some(Token(id))
  }

  function ReadBlockId(token: string): Option<nat> {
    match Decode(token)
    case None => None
    case Some(octets) => ReadColumns(AsText(octets))
  }

  // Exactly the ids in range are written; each as eight characters that read back to it.
  lemma BlockIdReadsBack(id: nat)
    ensures BlockId(id).Some? <==> id <= MAX_BLOCK_ID
    ensures id <= MAX_BLOCK_ID ==>
      && |Token(id)| == 8
      && '<' !in Token(id)
      && ReadBlockId(Token(id)) == Some(id)
  {
    if id <= MAX_BLOCK_ID {
      ColumnsFit(id);
      OctetsReadBack(SixColumns(id));
      EncodingDecodesBack(AsOctets(SixColumns(id)));
    }
  }

  lemma BlockIdsDiffer(i: nat, j: nat)
    requires i < j <= MAX_BLOCK_ID
    ensures BlockId(i) != BlockId(j)
  {
    hide Token, ReadBlockId;
    BlockIdReadsBack(i);
    BlockIdReadsBack(j);
  }

  // ----- The block list document -----

  const LIST_BEGIN: string := "<?xml version=\"1.0\" encoding=\"utf-8\"?>\r\n<BlockList>"
  const LIST_END: string := "</BlockList>"
  const LATEST_BEGIN: string := "<Latest>"
  const LATEST_END: string := "</Latest>"

  function Entry(token: string): string {
    LATEST_BEGIN + token + LATEST_END
  }

  // The document under construction: `begin` followed by one entry for each token.
  function Accumulated(begin: string, tokens: seq<string>): string {
    if tokens == [] then begin
    else Accumulated(begin, tokens[..|tokens| - 1]) + Entry(tokens[|tokens| - 1])
  }

  lemma AccumulatedGrows(begin: string, name: nat -> string, count: nat)
    ensures Accumulated(begin, Names(name, 0, count + 1)) == Accumulated(begin, Names(name, 0, count)) + Entry(name(count))
  {
    var tokens := Names(name, 0, count + 1);
    assert tokens[..count] == Names(name, 0, count);
  }

  function Until(text: string, stop: char): (length: nat)
    ensures length <= |text|
  {
    if text == "" || text[0] == stop then 0 else 1 + Until(text[1..], stop)
  }

  function ReadEntries(text: string): Option<seq<string>>
    decreases |text|
  {
    if text == LIST_END then Some([])
    else if !(LATEST_BEGIN <= text) then None
    else
      var afterTag := text[|LATEST_BEGIN|..];
      var length := Until(afterTag, '<');
      var rest := afterTag[length..];
      if !(LATEST_END <= rest) then None
      else
        match ReadEntries(rest[|LATEST_END|..])
        case Some(tokens) => Some([afterTag[..length]] + tokens)
        case None => None
  }

  function ReadIds(tokens: seq<string>): Option<seq<nat>> {
    if tokens == [] then Some([])
    else
      match (ReadBlockId(tokens[0]), ReadIds(tokens[1..]))
      case (Some(id), Some(ids)) => Some([id] + ids)
      case _ => None
  }

  // A reader of a committed document that opens with `begin`.
  function ReadList(begin: string, text: string): Option<seq<nat>> {
    if !(begin <= text) then None
    else
      match ReadEntries(text[|begin|..])
      case None => None
      case Some(tokens) => ReadIds(tokens)
  }

  // The names of the blocks first .. first + count - 1, and their ids.
  function Names(name: nat -> string, first: nat, count: nat): (tokens: seq<string>)
    ensures |tokens| == count
    ensures forall i :: 0 <= i < count ==> tokens[i] == name(first + i)
    decreases count
  {
    if count == 0 then [] else [name(first)] + Names(name, first + 1, count - 1)
  }

  function Ids(first: nat, count: nat): (ids: seq<nat>)
    ensures |ids| == count && forall i :: 0 <= i < count ==> ids[i] == first + i
    decreases count
  {
    if count == 0 then [] else [first] + Ids(first + 1, count - 1)
  }

  function Entries(tokens: seq<string>): string {
    if tokens == [] then "" else Entry(tokens[0]) + Entries(tokens[1..])
  }

  lemma {:induction false} EntriesGrowAtTheEnd(tokens: seq<string>, token: string)
    ensures Entries(tokens + [token]) == Entries(tokens) + Entry(token)
  {
    if tokens == [] {
      assert [] + [token] == [token];
      assert Entries([token]) == Entry(token) + "";
      assert Entries([]) == "";
    } else {
      EntriesGrowAtTheEnd(tokens[1..], token);
      assert (tokens + [token])[1..] == tokens[1..] + [token];
      Associate(Entry(tokens[0]), Entries(tokens[1..]), Entry(token));
    }
  }

  lemma {:induction false} AccumulatedIsEntries(begin: string, tokens: seq<string>)
    ensures Accumulated(begin, tokens) == begin + Entries(tokens)
  {
    if tokens == [] {
      assert begin + "" == begin;
    } else {
      var earlier, last := tokens[..|tokens| - 1], tokens[|tokens| - 1];
      AccumulatedIsEntries(begin, earlier);
      EntriesGrowAtTheEnd(earlier, last);
      assert earlier + [last] == tokens;
      Associate(begin, Entries(earlier), Entry(last));
    }
  }

  lemma {:induction false} UntilStops(token: string, rest: string, stop: char)
    requires stop !in token && rest != "" && rest[0] == stop
    ensures Until(token + rest, stop) == |token|
  {
    if token == "" {
      assert token + rest == rest;
    } else {
      UntilStops(token[1..], rest, stop);
      assert (token + rest)[1..] == token[1..] + rest;
    }
  }

  lemma SplitEntry(begin: string, token: string, end: string, rest: string)
    ensures var text := begin + token + end + rest;
            && begin <= text
            && text[|begin|..] == token + (end + rest)
            && (token + (end + rest))[..|token|] == token
            && (token + (end + rest))[|token|..] == end + rest
            && end <= end + rest
            && (end + rest)[|end|..] == rest
  {
  }

  lemma EntryReadsBack(token: string, rest: string)
    requires '<' !in token
    ensures ReadEntries(Entry(token) + rest)
         == match ReadEntries(rest) { case Some(tokens) => Some([token] + tokens) case None => None }
  {
    var text := Entry(token) + rest;
    SplitEntry(LATEST_BEGIN, token, LATEST_END, rest);
    assert text[1] == 'L' && LIST_END[1] == '/';
    UntilStops(token, LATEST_END + rest, '<');
  }

  lemma {:induction false} EntriesReadBack(tokens: seq<string>)
    requires forall token <- tokens :: '<' !in token
    ensures ReadEntries(Entries(tokens) + LIST_END) == Some(tokens)
  {
    if tokens == [] {
      assert "" + LIST_END == LIST_END;
    } else {
      EntriesReadBack(tokens[1..]);
      EntryReadsBack(tokens[0], Entries(tokens[1..]) + LIST_END);
      Associate(Entry(tokens[0]), Entries(tokens[1..]), LIST_END);
      assert [tokens[0]] + tokens[1..] == tokens;
    }
  }

  lemma {:induction false} NamesReadBack(name: nat -> string, first: nat, count: nat)
    requires forall id :: first <= id < first + count ==> ReadBlockId(name(id)) == Some(id)
    ensures ReadIds(Names(name, first, count)) == Some(Ids(first, count))
    decreases count
  {
    if count > 0 {
      NamesReadBack(name, first + 1, count - 1);
      assert ReadBlockId(name(first)) == Some(first);
    }
  }

  lemma Prefixed(a: string, b: string, c: string)
    ensures a <= (a + b) + c && ((a + b) + c)[|a|..] == b + c
  {
  }

  // The committed document names the blocks 0 .. count - 1, once each, in order.
  lemma ListReadsBack(begin: string, count: nat)
    requires count <= MAX_BLOCK_ID + 1
    ensures ReadList(begin, Accumulated(begin, Names(Token, 0, count)) + LIST_END) == Some(Ids(0, count))
  {
    hide Token, ReadBlockId, Entries, ReadEntries, ReadIds, Accumulated;
    var tokens := Names(Token, 0, count);
    forall id | 0 <= id < count
      ensures ReadBlockId(Token(id)) == Some(id) && '<' !in Token(id)
    {
      BlockIdReadsBack(id);
    }
    NamesReadBack(Token, 0, count);
    AccumulatedIsEntries(begin, tokens);
    EntriesReadBack(tokens);
    Prefixed(begin, Entries(tokens), LIST_END);
  }

  // ----- In so many characters -----

  // The alphabet: A to Z, a to z, 0 to 9, then "+" and "/".
  lemma AlphabetIs(v: nat)
    requires v < 64
    ensures SextetChar(0) == 'A' && SextetChar(25) == 'Z' && SextetChar(26) == 'a' && SextetChar(51) == 'z'
    ensures SextetChar(52) == '0' && SextetChar(61) == '9' && SextetChar(62) == '+' && SextetChar(63) == '/'
    ensures v !in {0, 26, 52, 62, 63} ==> SextetChar(v) as int == SextetChar(v - 1) as int + 1
  {
  }

  // The names of the first block and of the last that can be named: "     0" and " 49999" in Base64.
  lemma FirstAndLastToken()
    ensures Token(0) == "ICAgICAw" && Token(MAX_BLOCK_ID) == "IDQ5OTk5"
  {
    hide SixColumns, AsOctets, Encode, FitsOctets;
    FirstColumns();
    LastColumns();
    ColumnsFit(0);
    ColumnsFit(MAX_BLOCK_ID);
    SixOctets("     0");
    SixOctets(" 49999");
    EightChars(32, 32, 32, 32, 32, 48);
    EightChars(32, 52, 57, 57, 57, 57);
  }

  lemma FirstColumns()
    ensures SixColumns(0) == "     0"
  {
    assert Decimal(0) == "0" && Spaces(5) == "     ";
  }

  lemma LastColumns()
    ensures SixColumns(MAX_BLOCK_ID) == " 49999"
  {
    assert Decimal(4) == "4" && Decimal(49) == "49" && Decimal(499) == "499" && Decimal(4999) == "4999";
    assert Decimal(49999) == "49999" && Spaces(1) == " ";
  }

  lemma {:induction false} OctetsAre(text: string)
    requires FitsOctets(text)
    ensures forall i :: 0 <= i < |text| ==> AsOctets(text)[i] == text[i] as nat
  {
    if text != "" {
      OctetsAre(text[1..]);
    }
  }

  lemma SixOctets(text: string)
    requires |text| == 6 && FitsOctets(text)
    ensures AsOctets(text)
         == [text[0] as nat, text[1] as nat, text[2] as nat, text[3] as nat, text[4] as nat, text[5] as nat]
  {
    hide AsOctets;
    OctetsAre(text);
  }

  lemma EightChars(a: Octet, b: Octet, c: Octet, d: Octet, e: Octet, f: Octet)
    ensures Encode([a, b, c, d, e, f])
         == [SextetChar(a / 4), SextetChar(a % 4 * 16 + b / 16), SextetChar(b % 16 * 4 + c / 64), SextetChar(c % 64),
             SextetChar(d / 4), SextetChar(d % 4 * 16 + e / 16), SextetChar(e % 16 * 4 + f / 64), SextetChar(f % 64)]
  {
    hide SextetChar, Chars;
    var octets, later := [a, b, c, d, e, f], [d, e, f];
    assert later[3..] == [] && octets[3..] == later;
    OneGroup(later);
    OneGroup(octets);
    EightOf(Sextets(octets));
  }

  lemma OneGroup(octets: seq<Octet>)
    requires |octets| % 3 == 0 && octets != []
    ensures var a: nat, b: nat, c: nat := octets[0], octets[1], octets[2];
            Sextets(octets)
            == [a / 4, a % 4 * 16 + b / 16, b % 16 * 4 + c / 64, c % 64] + Sextets(octets[3..])
    ensures Sextets([]) == []
  {
  }

  lemma EightOf(sextets: seq<Sextet>)
    requires |sextets| == 8
    ensures |Chars(sextets)| == 8 && forall i :: 0 <= i < 8 ==> Chars(sextets)[i] == SextetChar(sextets[i])
  {
    CharsAre(sextets);
  }

  lemma {:induction false} CharsAre(sextets: seq<Sextet>)
    ensures forall i :: 0 <= i < |sextets| ==> Chars(sextets)[i] == SextetChar(sextets[i])
  {
    if sextets != [] {
      CharsAre(sextets[1..]);
    }
  }

  // One more block adds its name between the tags of a latest block.
  lemma OneMoreEntry(begin: string, tokens: seq<string>, token: string)
    ensures Accumulated(begin, []) == begin
    ensures Accumulated(begin, tokens + [token]) == Accumulated(begin, tokens) + ("<Latest>" + token + "</Latest>")
  {
    assert (tokens + [token])[..|tokens|] == tokens;
  }

  // The document of one block, in full.
  lemma DocumentOfOne(token: string)
    ensures Accumulated(LIST_BEGIN, [token]) + LIST_END
         == "<?xml version=\"1.0\" encoding=\"utf-8\"?>\r\n<BlockList>" + ("<Latest>" + token + "</Latest>")
            + "</BlockList>"
  {
    OneMoreEntry(LIST_BEGIN, [], token);
    assert [] + [token] == [token];
  }
}

/** Files cut into chunks of whole lines, and the citation of each chunk. */
module Chunking {
  datatype Chunk = Chunk(start: nat, text: string)

  /** "\n".join */
  function Join(lines: seq<string>): string {
    if lines == [] then "" else if |lines| == 1 then lines[0] else lines[0] + "\n" + Join(lines[1..])
  }

  /** split("\n"), the inverse of Join. */
  function Split(text: string): (lines: seq<string>)
    ensures lines != []
  {
    if text == "" then [""]
    else
      var rest := Split(text[1..]);
      if text[0] == '\n' then [""] + rest else [[text[0]] + rest[0]] + rest[1..]
  }

  function Newlines(text: string): nat {
    if text == "" then 0 else (if text[0] == '\n' then 1 else 0) + Newlines(text[1..])
  }

  /** splitlines never leaves a newline in a line. */
  predicate Clean(lines: seq<string>) {
    forall i :: 0 <= i < |lines| ==> '\n' !in lines[i]
  }

  function Min(a: nat, b: nat): nat { if a <= b then a else b }

  /** The chunks from line index on. */
  function ChunksFrom(lines: seq<string>, size: nat, index: nat): seq<Chunk>
    requires size > 0
    decreases |lines| - index
  {
    if index >= |lines| then []
    else [Chunk(index + 1, Join(lines[index..Min(index + size, |lines|)]))] + ChunksFrom(lines, size, index + size)
  }

  /** The citation's last line, counted from the chunk's text. */
  function EndLine(c: Chunk): nat { c.start + Newlines(c.text) }

  lemma {:induction false} SplitLine(line: string, text: string)
    requires '\n' !in line
    ensures Split(line + "\n" + text) == [line] + Split(text)
    ensures Newlines(line + "\n" + text) == 1 + Newlines(text)
    ensures Split(line) == [line] && Newlines(line) == 0
  {
    if line == "" {
      assert (line + "\n" + text)[1..] == text;
    } else {
      SplitLine(line[1..], text);
      assert (line + "\n" + text)[1..] == line[1..] + "\n" + text;
      assert line == [line[0]] + line[1..];
    }
  }

  /** Splitting a joined chunk gives its lines back, and it has one newline less than lines. */
  lemma {:induction false} SplitJoin(lines: seq<string>)
    requires lines != [] && Clean(lines)
    ensures Split(Join(lines)) == lines && Newlines(Join(lines)) == |lines| - 1
  {
    if |lines| == 1 {
      SplitLine(lines[0], "");
    } else {
      SplitJoin(lines[1..]);
      SplitLine(lines[0], Join(lines[1..]));
    }
  }

  /** Each chunk's citation names exactly the lines of its text, and the chunks tile the file from line
      index + 1 to its last line without gap or overlap. */
  ghost predicate Tiles(lines: seq<string>, size: nat, index: nat, cs: seq<Chunk>) {
    && (cs == [] <==> index >= |lines|)
    && (cs != [] ==> cs[0].start == index + 1 && EndLine(cs[|cs| - 1]) == |lines|)
    && (forall k :: 0 <= k < |cs| ==>
          && 1 <= cs[k].start <= EndLine(cs[k]) <= |lines| && EndLine(cs[k]) < cs[k].start + size
          && Split(cs[k].text) == lines[cs[k].start - 1..EndLine(cs[k])])
    && (forall k :: 0 <= k < |cs| - 1 ==> cs[k + 1].start == EndLine(cs[k]) + 1 == cs[k].start + size)
  }

  lemma FirstChunk(lines: seq<string>, size: nat, index: nat)
    requires size > 0 && Clean(lines) && index < |lines|
    ensures var c := ChunksFrom(lines, size, index)[0];
            && c.start == index + 1 && EndLine(c) == Min(index + size, |lines|)
            && Split(c.text) == lines[index..EndLine(c)]
  {
    SplitJoin(lines[index..Min(index + size, |lines|)]);
    hide Split, Join, Newlines;
  }

  lemma PrependTiles(lines: seq<string>, size: nat, index: nat, c: Chunk, rest: seq<Chunk>)
    requires size > 0 && index < |lines| && Tiles(lines, size, index + size, rest)
    requires c.start == index + 1 && EndLine(c) == Min(index + size, |lines|)
             && Split(c.text) == lines[index..EndLine(c)]
    ensures Tiles(lines, size, index, [c] + rest)
  {
    hide Split, EndLine;
    var cs := [c] + rest;
    forall k | 0 <= k < |cs| - 1 ensures cs[k + 1].start == EndLine(cs[k]) + 1 == cs[k].start + size {
      if k > 0 {
        assert cs[k] == rest[k - 1] && cs[k + 1] == rest[k];
      }
    }
  }

  lemma {:induction false} ChunksTile(lines: seq<string>, size: nat, index: nat)
    requires size > 0 && Clean(lines)
    ensures Tiles(lines, size, index, ChunksFrom(lines, size, index))
    decreases |lines| - index
  {
    hide Split, EndLine, Tiles, Join;
    if index < |lines| {
      FirstChunk(lines, size, index);
      ChunksTile(lines, size, index + size);
      var rest := ChunksFrom(lines, size, index + size);
      PrependTiles(lines, size, index, ChunksFrom(lines, size, index)[0], rest);
    } else {
      NothingToTile(lines, size, index);
    }
  }

  lemma NothingToTile(lines: seq<string>, size: nat, index: nat)
    requires size > 0 && index >= |lines|
    ensures Tiles(lines, size, index, [])
  {
  }

  function Texts(cs: seq<Chunk>): seq<string> {
    if cs == [] then [] else [cs[0].text] + Texts(cs[1..])
  }

  lemma {:induction false} JoinAppend(a: seq<string>, b: seq<string>)
    requires a != [] && b != []
    ensures Join(a + b) == Join(a) + "\n" + Join(b)
  {
    if |a| == 1 {
      assert (a + b)[1..] == b;
    } else {
      JoinAppend(a[1..], b);
      assert (a + b)[1..] == a[1..] + b;
      assert Join(a + b) == a[0] + "\n" + (Join(a[1..]) + "\n" + Join(b));
    }
  }

  /** The chunks' texts joined are the file's lines joined. */
  lemma {:induction false} ChunksConcatenate(lines: seq<string>, size: nat, index: nat)
    requires size > 0 && index <= |lines|
    ensures Join(Texts(ChunksFrom(lines, size, index))) == Join(lines[index..])
    decreases |lines| - index
  {
    if index < |lines| {
      var end := Min(index + size, |lines|);
      var slice := lines[index..end];
      var cs := ChunksFrom(lines, size, index);
      var rest := ChunksFrom(lines, size, index + size);
      assert cs[1..] == rest && cs[0].text == Join(slice);
      if index + size < |lines| {
        ChunksConcatenate(lines, size, index + size);
        JoinAppend(slice, lines[end..]);
        assert slice + lines[end..] == lines[index..];
        assert Texts(rest) != [];
        JoinAppend([cs[0].text], Texts(rest));
      } else {
        assert slice == lines[index..] && rest == [];
      }
    }
  }
}

/**
 The save file. It is written as a binary stream and read back as a text
 stream, which on the game's platform folds CR-LF pairs into LF and takes
 Ctrl-Z as the end of the file (section 7.21.2 of ISO/IEC 9899:2011).
 */
module SaveFile {
  import opened MapTables

  const LF: byte := 10
  const CR: byte := 13
  const CTRL_Z: byte := 26

  function TextRead(raw: Bytes): (text: Bytes)
    ensures |text| <= |raw|
  {
    if raw == [] || raw[0] == CTRL_Z then []
    else if |raw| >= 2 && raw[0] == CR && raw[1] == LF then [LF] + TextRead(raw[2..])
    else [raw[0]] + TextRead(raw[1..])
  }

  /** What reading into a buffer leaves in it. */
  function Fread(buffer: Bytes, stream: Bytes): (after: Bytes)
    ensures |after| == |buffer|
  {
    if |stream| >= |buffer| then stream[..|buffer|] else stream + buffer[|stream|..]
  }

  function Rest(buffer: Bytes, stream: Bytes): Bytes {
    if |stream| >= |buffer| then stream[|buffer|..] else []
  }

  ghost predicate HasLineEnd(raw: Bytes) {
    exists i :: 0 <= i < |raw| - 1 && raw[i] == CR && raw[i + 1] == LF
  }

  /** Bytes written binary come back unchanged from a text stream exactly when
      they hold no Ctrl-Z and no CR-LF pair. */
  lemma {:induction false} TextReadExactly(raw: Bytes)
    ensures TextRead(raw) == raw <==> CTRL_Z !in raw && !HasLineEnd(raw)
  {
    if raw != [] && raw[0] != CTRL_Z {
      if |raw| >= 2 && raw[0] == CR && raw[1] == LF {
        assert |TextRead(raw)| < |raw|;
      } else {
        TextReadExactly(raw[1..]);
        assert raw == [raw[0]] + raw[1..];
        assert TextRead(raw)[1..] == TextRead(raw[1..]);
        if HasLineEnd(raw) {
          var i :| 0 <= i < |raw| - 1 && raw[i] == CR && raw[i + 1] == LF;
          assert raw[1..][i - 1] == CR && raw[1..][i - 1 + 1] == LF;
        }
        if HasLineEnd(raw[1..]) {
          var i :| 0 <= i < |raw| - 2 && raw[1..][i] == CR && raw[1..][i + 1] == LF;
          assert raw[i + 1] == CR && raw[i + 1 + 1] == LF;
        }
      }
    }
  }

  lemma TextReadPair(b: Bytes)
    ensures TextRead([CR, LF] + b) == [LF] + TextRead(b)
  {
    assert ([CR, LF] + b)[2..] == b;
  }

  lemma TextReadByte(x: byte, b: Bytes)
    requires x != CTRL_Z && (b == [] || x != CR || b[0] != LF)
    ensures TextRead([x] + b) == [x] + TextRead(b)
  {
    assert ([x] + b)[1..] == b;
  }

  lemma TextReadNone()
    ensures TextRead([]) == []
  {
  }

  lemma TextReadEnd(b: Bytes)
    ensures TextRead([CTRL_Z] + b) == []
  {
  }

  lemma JoinPair(c: Bytes, b: Bytes)
    requires TextRead(c + b) == TextRead(c) + TextRead(b)
    ensures TextRead([CR, LF] + c + b) == TextRead([CR, LF] + c) + TextRead(b)
  {
    hide TextRead;
    TextReadPair(c);
    TextReadPair(c + b);
    assert [CR, LF] + c + b == [CR, LF] + (c + b);
  }

  lemma JoinByte(x: byte, c: Bytes, b: Bytes)
    requires TextRead(c + b) == TextRead(c) + TextRead(b) && x != CTRL_Z
    requires (c + b == [] || x != CR || (c + b)[0] != LF) && (c == [] || x != CR || c[0] != LF)
    ensures TextRead([x] + c + b) == TextRead([x] + c) + TextRead(b)
  {
    hide TextRead;
    TextReadByte(x, c);
    TextReadByte(x, c + b);
    assert [x] + c + b == [x] + (c + b);
  }

  /** A text is read piece by piece, as long as no CR-LF pair is cut in two. */
  lemma {:induction false} TextReadJoin(a: Bytes, b: Bytes)
    requires CTRL_Z !in a && (a == [] || b == [] || a[|a| - 1] != CR || b[0] != LF)
    ensures TextRead(a + b) == TextRead(a) + TextRead(b)
    decreases |a|
  {
    hide TextRead;
    if a == [] {
      TextReadNone();
      assert a + b == b;
    } else if |a| >= 2 && a[0] == CR && a[1] == LF {
      TextReadJoin(a[2..], b);
      JoinPair(a[2..], b);
      assert [CR, LF] + a[2..] == a;
    } else {
      TextReadJoin(a[1..], b);
      JoinByte(a[0], a[1..], b);
      assert [a[0]] + a[1..] == a;
    }
  }

  /** A CR-LF pair is read as LF, whatever stands around it, and Ctrl-Z ends the
      file. */
  lemma TextReadMarks(a: Bytes, b: Bytes)
    requires CTRL_Z !in a
    ensures TextRead(a + [CR, LF] + b) == TextRead(a) + [LF] + TextRead(b)
    ensures TextRead(a + [CTRL_Z] + b) == TextRead(a)
  {
    hide TextRead;
    TextReadPair(b);
    TextReadJoin(a, [CR, LF] + b);
    assert a + [CR, LF] + b == a + ([CR, LF] + b);
    assert TextRead(a) + ([LF] + TextRead(b)) == TextRead(a) + [LF] + TextRead(b);
    TextReadEnd(b);
    TextReadJoin(a, [CTRL_Z] + b);
    assert a + [CTRL_Z] + b == a + ([CTRL_Z] + b);
  }

  /** The bytes of a drawing: space, NUL, and those of two-byte characters. */
  predicate DrawingByte(b: byte) {
    b == SPACE || b == 0 || b >= 0xA1
  }

  ghost predicate DrawingBytes(raw: Bytes) {
    forall i :: 0 <= i < |raw| ==> DrawingByte(raw[i])
  }

  lemma ImageIsDrawing(g: Grid<Glyph>, bytes: set<int>)
    requires IsGrid(g)
    ensures DrawingBytes(Image(g, bytes))
  {
  }

  /** Of two drawings written one after the other, as many bytes as reached the
      file are read back into their places, and the rest of the buffers stays. */
  lemma TornRoundTrip(a: Bytes, b: Bytes, n: nat, old0: Bytes, old1: Bytes)
    requires DrawingBytes(a) && DrawingBytes(b) && n <= |a| + |b|
    requires |old0| == |a| && |old1| == |b|
    ensures var text := TextRead((a + b)[..n]);
            && (forall k :: 0 <= k < |a| ==> Fread(old0, text)[k] == if k < n then a[k] else old0[k])
            && (forall k :: 0 <= k < |b| ==>
                  Fread(old1, Rest(old0, text))[k] == if |a| + k < n then b[k] else old1[k])
  {
    TextReadExactly((a + b)[..n]);
  }

  /** Two drawings written one after the other are read back byte for byte. */
  lemma SaveLoadRoundTrip(a: Bytes, b: Bytes, old0: Bytes, old1: Bytes)
    requires DrawingBytes(a) && DrawingBytes(b)
    requires |old0| == |a| && |old1| == |b|
    ensures var text := TextRead(a + b);
            Fread(old0, text) == a && Fread(old1, Rest(old0, text)) == b
  {
    hide TextRead, Fread, Rest;
    TornRoundTrip(a, b, |a| + |b|, old0, old1);
    assert (a + b)[..|a| + |b|] == a + b;
  }
}

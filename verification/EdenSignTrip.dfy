/**
 Signs from the server's list into a world file and back: the axes swap twice, and a text longer than
 the file's field is cut.
 */
module EdenSignTrip {
  import opened EdenExport
  import opened EdenFile
  import opened EdenSigns
  import opened SignStore
  import opened SnapzCodec
  import opened Voxels

  /** Characters a text field keeps. */
  const KEPT := 95

  function TextChars(b: seq<byte>): (s: string)
    ensures |s| == |b|
  {
    seq(|b|, i requires 0 <= i < |b| => b[i] as int as char)
  }

  /** Every character is one byte, as they all are on the server. */
  predicate ByteText(s: string) { forall i :: 0 <= i < |s| ==> s[i] as int < 256 }

  /** A file's sign on the server, if the world has a place for it. */
  function SignToServer(e: EdenSign): Option<Sign> {
    var p := Pos(e.x as int, e.z as int, e.y as int);
    if !InWorld(p) then None
    else Some(Sign(p.x, p.y, p.z, e.a as int, e.b as int, e.c as int, Sanitize(TextChars(e.text), SignStore.TEXT_MAX)))
  }

  function ServerSigns(es: seq<EdenSign>): (r: seq<Sign>)
    ensures |r| <= |es|
  {
    if es == [] then []
    else
      var t := SignToServer(es[|es| - 1]);
      ServerSigns(es[..|es| - 1]) + if t.Some? then [t.value] else []
  }

  method ConvertSigns(es: seq<EdenSign>) returns (out: seq<Sign>, dropped: nat)
    ensures out == ServerSigns(es) && |out| + dropped == |es|
  {
    out, dropped := [], 0;
    for i := 0 to |es|
      invariant out == ServerSigns(es[..i]) && |out| + dropped == i
    {
      assert es[..i + 1][..i] == es[..i];
      var t := SignToServer(es[i]);
      if t.Some? { out := out + [t.value]; } else { dropped := dropped + 1; }
    }
    assert es[..|es|] == es;
  }

  // --- one sign ---------------------------------------------------------------------------------------

  function CutText<T>(t: seq<T>): seq<T> { if |t| > KEPT then t[..KEPT] else t }

  /** A record as its text field keeps it. */
  function Clip(e: EdenSign): EdenSign { e.(text := CutText(e.text)) }

  /** A sign with the text a file keeps of it. */
  function Cut(s: Sign): Sign { s.(text := CutText(s.text)) }

  /** A sign the file has a place for. */
  predicate Fits(s: Sign, ceiling: int) { s.y <= ceiling && s.x < COORD_LIMIT * 16 && s.z < COORD_LIMIT * 16 }

  lemma {:induction false} ClipSame(e: EdenSign)
    ensures RecordBytes(Clip(e)) == RecordBytes(e)
  {
    hide LeBytes;
  }

  lemma {:induction false} CharsBack(s: string)
    requires ByteText(s)
    ensures TextChars(TextBytes(s)) == s
  {
    assert forall i :: 0 <= i < |s| ==> TextChars(TextBytes(s))[i] == s[i];
  }

  lemma {:induction false} CutBytes(s: string)
    ensures CutText(TextBytes(s)) == TextBytes(CutText(s))
  {
  }

  lemma {:induction false} NoNul(s: string)
    requires ByteText(s) && forall i :: 0 <= i < |s| ==> Printable(s[i])
    ensures 0 !in TextBytes(s)
  {
    assert forall i :: 0 <= i < |s| ==> TextBytes(s)[i] as int == s[i] as int;
  }

  /** A sign goes into the file exactly when the file has a place for it; its record there has a text
      that fits, and reads back as the sign with its text cut. */
  lemma {:induction false} OneSign(s: Sign, ceiling: int)
    requires s.Valid() && ByteText(s.text) && ceiling <= 255
    ensures var f := SignToFile(s, ceiling);
      && (f.Some? <==> Fits(s, ceiling))
      && (f.Some? ==> Clip(f.value).Fits() && SignToServer(Clip(f.value)) == Some(Cut(s)))
  {
    SanitizeClean(s.text, SignStore.TEXT_MAX);
    var t := CutText(s.text);
    SanitizeClean(t, SignStore.TEXT_MAX);
    CutBytes(s.text);
    CharsBack(t);
    NoNul(t);
    hide Sanitize, TextChars, TextBytes, CutText, Printable;
    assert |t| <= KEPT by { ShortText(s.text); }
  }

  lemma {:induction false} ShortText(s: string)
    ensures |CutText(s)| <= KEPT
  {
  }

  // --- a list -----------------------------------------------------------------------------------------

  function Clips(es: seq<EdenSign>): (r: seq<EdenSign>)
    ensures |r| == |es| && forall i :: 0 <= i < |es| ==> r[i] == Clip(es[i])
  {
    seq(|es|, i requires 0 <= i < |es| => Clip(es[i]))
  }

  /** The signs a file has a place for, their texts cut. */
  function Surviving(signs: seq<Sign>, ceiling: int): seq<Sign> {
    if signs == [] then []
    else
      var s := signs[|signs| - 1];
      Surviving(signs[..|signs| - 1], ceiling) + if Fits(s, ceiling) then [Cut(s)] else []
  }

  predicate AllBytes(signs: seq<Sign>) { forall i :: 0 <= i < |signs| ==> ByteText(signs[i].text) }

  lemma {:induction false} ClipsSame(es: seq<EdenSign>)
    ensures Records(Clips(es)) == Records(es)
  {
    if es != [] {
      var n := |es| - 1;
      assert Clips(es)[..n] == Clips(es[..n]);
      ClipsSame(es[..n]);
      ClipSame(es[n]);
      hide RecordBytes, Clip;
    }
  }

  /** What a file's containers say does not depend on the text past the field. */
  lemma {:induction false} ContainersClip(es: seq<EdenSign>)
    ensures Body(Clips(es)) == Body(es) && Trailer(Clips(es)) == Trailer(es)
  {
    ClipsSame(es);
    hide Records, Rows, RowPadded;
  }

  lemma {:induction false} ListTrip(signs: seq<Sign>, ceiling: int)
    requires AllValid(signs) && AllBytes(signs) && ceiling <= 255
    ensures var es := Clips(FileSigns(signs, ceiling));
      AllFit(es) && ServerSigns(es) == Surviving(signs, ceiling)
  {
    if signs != [] {
      var n := |signs| - 1;
      var front, s := signs[..n], signs[n];
      ListTrip(front, ceiling);
      OneSign(s, ceiling);
      var f := SignToFile(s, ceiling);
      if f.Some? { ClipsSnoc(FileSigns(front, ceiling), f.value); } else { NoMore(FileSigns(front, ceiling), Surviving(front, ceiling)); }
      hide Clip, Cut, Clips, Fits, SignToFile, SignToServer, EdenSign.Fits;
    }
  }

  lemma {:induction false} ClipsSnoc(es: seq<EdenSign>, e: EdenSign)
    ensures Clips(es + [e]) == Clips(es) + [Clip(e)]
    ensures ServerSigns(Clips(es) + [Clip(e)]) ==
      ServerSigns(Clips(es)) + if SignToServer(Clip(e)).Some? then [SignToServer(Clip(e)).value] else []
    ensures AllFit(Clips(es)) && Clip(e).Fits() ==> AllFit(Clips(es + [e]))
  {
    assert (Clips(es) + [Clip(e)])[..|es|] == Clips(es);
    hide Clip, SignToServer, EdenSign.Fits;
  }

  lemma {:induction false} NoMore(es: seq<EdenSign>, ss: seq<Sign>)
    ensures es + [] == es && ss + [] == ss
  {
  }

  /** The server's signs come back from either container of a world file in order: every one the file
      has a place for, its text cut to the field. */
  lemma {:induction false} SignsTrip(signs: seq<Sign>, ceiling: int)
    requires AllValid(signs) && AllBytes(signs) && |signs| <= SignStore.MAX_SIGNS && ceiling <= 255
    ensures var es := FirstSigns(FileSigns(signs, ceiling));
      && ServerSigns(ReadInline(Trailer(es))) == Surviving(signs, ceiling)
      && ServerSigns(ReadBody(Body(es))) == Surviving(signs, ceiling)
  {
    var es := FileSigns(signs, ceiling);
    ListTrip(signs, ceiling);
    ContainersClip(es);
    var cs := Clips(es);
    BodyRoundTrip(cs, []);
    assert Body(cs) + [] == Body(cs);
    if cs == [] { NoTrailer(); } else { TrailerRoundTrip(cs); }
    hide Body, Trailer, ReadInline, ReadBody, Clips, FileSigns, ServerSigns, Surviving, AllFit;
  }

  lemma {:induction false} NoTrailer()
    ensures ReadInline(Trailer([])) == []
  {
  }

  /** Nothing is lost exactly when the file has a place for every sign and no text is too long. */
  lemma {:induction false} NothingLost(signs: seq<Sign>, ceiling: int)
    ensures Surviving(signs, ceiling) == signs <==> forall s :: s in signs ==> Fits(s, ceiling) && |s.text| <= KEPT
    ensures |Surviving(signs, ceiling)| <= |signs|
  {
    if signs != [] {
      var n := |signs| - 1;
      var front, s := signs[..n], signs[n];
      assert signs == front + [s];
      NothingLost(front, ceiling);
      assert Cut(s) == s <==> |s.text| <= KEPT;
      hide Cut, Fits;
      LastSame(Surviving(front, ceiling), front, Cut(s), s);
    }
  }

  lemma {:induction false} LastSame(a: seq<Sign>, b: seq<Sign>, x: Sign, y: Sign)
    requires |a| <= |b|
    ensures a + [x] == b + [y] <==> a == b && x == y
    ensures a + [] != b + [y]
  {
    if a + [x] == b + [y] {
      assert |a| == |b| && (a + [x])[|a|] == (b + [y])[|b|];
      assert a == (a + [x])[..|a|] && b == (b + [y])[..|b|];
    }
    assert |a + []| < |b + [y]|;
  }
}

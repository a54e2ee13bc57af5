/** Opening an assembled clip with the package's own reader: what Open finds in it. */
module MkvReopen {
  import opened Basics
  import opened Ebml
  import opened Mkv

  // ---------------------------------------------------------------- small elements

  function UintElement(id: nat, v: nat): Element { Encoded(id, BeBytes(v, UintWidthFrom(v, 1))) }

  function WideElement(id: nat, v: nat): Element { Encoded(id, BeBytes(v, 8)) }

  lemma UintElementOk(id: nat, v: nat)
    requires ValidID(id) && v < TWO64
    ensures IsElement(UintElement(id, v)) && UintElement(id, v).raw == EncodeUint(id, v)
    ensures UintOr0(UintElement(id, v).data) == v
  {
    hide BeBytes, IsElement, UintWidthFrom, EncodeElement;
    EncodedIsElement(id, BeBytes(v, UintWidthFrom(v, 1)));
    UintRoundTrip(v, UintWidthFrom(v, 1));
  }

  lemma WideElementOk(id: nat, v: nat)
    requires ValidID(id) && v < TWO64
    ensures IsElement(WideElement(id, v)) && WideElement(id, v).raw == EncodeUintWidth(id, v, 8)
    ensures UintOr0(WideElement(id, v).data) == v
  {
    hide BeBytes, IsElement, UintWidthFrom, EncodeElement;
    EncodedIsElement(id, BeBytes(v, 8));
    UintRoundTrip(v, 8);
  }

  /** The payload of the ID's own bytes is the ID. */
  lemma IDPayload(id: nat)
    requires ValidID(id)
    ensures UintOr0(EncodeID(id)) == id && |EncodeID(id)| <= 4
  {
    hide BeBytes;
    PowTable();
    BeValOfBytes(id, IDWidth(id));
  }

  lemma TwoElements(a: Element, b: Element)
    requires IsElement(a) && IsElement(b)
    ensures Elements(a.raw + b.raw) == Ok([a, b])
  {
    hide Elements, IsElement;
    assert [a, b][1..] == [b] && [b][1..] == [];
    assert Flat([b]) == b.raw + [] == b.raw;
    assert Flat([a, b]) == a.raw + b.raw;
    ElementsOfFlat([a, b]);
  }

  lemma EncodedLengthBound(id: nat, p: Bytes)
    ensures |p| <= |EncodeElement(id, p)| <= 12 + |p|
  {
    hide EncodeSize, MinSizeWidth, BeBytes;
  }

  lemma LastOfTwo(a: Element, b: Element, id: nat)
    ensures LastData([a, b], id) == if b.id == id then Some(b.data) else if a.id == id then Some(a.data) else None
  {
    assert [a, b][..1] == [a] && [a][..0] == [];
    assert LastData([a], id) == if a.id == id then Some(a.data) else LastData([], id);
  }

  // ---------------------------------------------------------------- the SeekHead

  lemma SeekElementOk(id: nat, pos: int)
    requires ValidID(id) && 0 <= pos < TWO64
    ensures IsElement(SeekElement(id, pos)) && |SeekElement(id, pos).raw| <= 48
    ensures Elements(SeekElement(id, pos).data) ==
      Ok([Encoded(ID_SEEK_ID, EncodeID(id)), WideElement(ID_SEEK_POSITION, pos)])
  {
    hide Elements, EncodeElement, IsElement, EncodeID, BeBytes, MinSizeWidth;
    var a, b := Encoded(ID_SEEK_ID, EncodeID(id)), WideElement(ID_SEEK_POSITION, pos);
    IDPayload(id);
    WideElementOk(ID_SEEK_POSITION, pos);
    EncodedIsElement(ID_SEEK_ID, EncodeID(id));
    TwoElements(a, b);
    EncodedLengthBound(ID_SEEK_ID, EncodeID(id));
    EncodedLengthBound(ID_SEEK_POSITION, BeBytes(pos, 8));
    EncodedLengthBound(ID_SEEK, a.raw + b.raw);
    EncodedIsElement(ID_SEEK, a.raw + b.raw);
    assert SeekElement(id, pos) == Encoded(ID_SEEK, a.raw + b.raw);
  }

  lemma SeekKids(id: nat, pos: nat)
    requires ValidID(id) && pos < TWO64
    ensures var kids := [Encoded(ID_SEEK_ID, EncodeID(id)), WideElement(ID_SEEK_POSITION, pos)];
      LastUint(kids, ID_SEEK_ID) == id < TWO32 && LastData(kids, ID_SEEK_POSITION).Some?
        && LastUint(kids, ID_SEEK_POSITION) == pos
  {
    hide EncodeElement, EncodeID, BeBytes, UintOr0, LastData;
    IDPayload(id);
    WideElementOk(ID_SEEK_POSITION, pos);
    var a, b := Encoded(ID_SEEK_ID, EncodeID(id)), WideElement(ID_SEEK_POSITION, pos);
    LastOfTwo(a, b, ID_SEEK_ID);
    LastOfTwo(a, b, ID_SEEK_POSITION);
  }

  /** A Seek entry answers for its own ID, and for no other. */
  lemma SeekStep(es: seq<Element>, id: nat, pos: int, want: nat)
    requires es != [] && es[0] == SeekElement(id, pos) && ValidID(id) && 0 <= pos < TWO62 - 1
    ensures SeekIn(es, want) == if id == want then Some(pos) else SeekIn(es[1..], want)
  {
    hide Elements, WideElement, EncodeElement, EncodeID, LastData, LastUint, ValidID;
    SeekElementOk(id, pos);
    SeekKids(id, pos);
  }

  lemma SeekEach(infoPos: int, tracksPos: int, cuesPos: int, attPos: Option<int>)
    requires 0 <= infoPos < TWO64 && 0 <= tracksPos < TWO64 && 0 <= cuesPos < TWO64
      && (attPos.Some? ==> 0 <= attPos.value < TWO64)
    ensures var es := SeekElements(infoPos, tracksPos, cuesPos, attPos);
      |es| <= 4 && forall i :: 0 <= i < |es| ==> IsElement(es[i]) && |es[i].raw| <= 48
  {
    hide SeekElement, Elements, IsElement;
    SeekElementOk(ID_INFO, infoPos);
    SeekElementOk(ID_TRACKS, tracksPos);
    SeekElementOk(ID_CUES, cuesPos);
    if attPos.Some? { SeekElementOk(ID_ATTACHMENTS, attPos.value); }
  }

  lemma SeekAll(infoPos: int, tracksPos: int, cuesPos: int, attPos: Option<int>)
    requires 0 <= infoPos < TWO64 && 0 <= tracksPos < TWO64 && 0 <= cuesPos < TWO64
      && (attPos.Some? ==> 0 <= attPos.value < TWO64)
    ensures var es := SeekElements(infoPos, tracksPos, cuesPos, attPos);
      AllElements(es) && |Flat(es)| <= 192 && Elements(Flat(es)) == Ok(es)
  {
    hide SeekElements, Elements, IsElement, Flat;
    var es := SeekElements(infoPos, tracksPos, cuesPos, attPos);
    SeekEach(infoPos, tracksPos, cuesPos, attPos);
    FlatBound(es, 48);
    ElementsOfFlat(es);
  }

  lemma {:induction false} FlatBound(es: seq<Element>, n: nat)
    requires forall i :: 0 <= i < |es| ==> |es[i].raw| <= n
    ensures |Flat(es)| <= n * |es|
  {
    if es != [] { FlatBound(es[1..], n); }
  }

  /** The reader finds every listed position in the SeekHead, and finds nothing for other IDs. */
  lemma SeekFinds(infoPos: int, tracksPos: int, cuesPos: int, attPos: Option<int>, want: nat)
    requires 0 <= infoPos < TWO62 - 1 && 0 <= tracksPos < TWO62 - 1 && 0 <= cuesPos < TWO62 - 1
    requires attPos.Some? ==> 0 <= attPos.value < TWO62 - 1
    ensures SeekPosition(Flat(SeekElements(infoPos, tracksPos, cuesPos, attPos)), want)
         == if want == ID_INFO then Some(infoPos)
            else if want == ID_TRACKS then Some(tracksPos)
            else if want == ID_CUES then Some(cuesPos)
            else if want == ID_ATTACHMENTS && attPos.Some? then Some(attPos.value)
            else None
  {
    hide SeekElement, Elements, Flat, AllElements;
    SeekAll(infoPos, tracksPos, cuesPos, attPos);
    var es := SeekElements(infoPos, tracksPos, cuesPos, attPos);
    SeekStep(es, ID_INFO, infoPos, want);
    SeekStep(es[1..], ID_TRACKS, tracksPos, want);
    if attPos.Some? {
      SeekStep(es[1..][1..], ID_ATTACHMENTS, attPos.value, want);
      SeekStep(es[1..][1..][1..], ID_CUES, cuesPos, want);
      assert es[1..][1..][1..][1..] == [];
    } else {
      SeekStep(es[1..][1..], ID_CUES, cuesPos, want);
      assert es[1..][1..][1..] == [];
    }
  }

  // ---------------------------------------------------------------- Info and Tracks

  lemma {:induction false} ScaleConcat(a: seq<Element>, b: seq<Element>)
    requires forall e :: e in b ==> e.id != ID_TIMESTAMP_SCALE
    ensures ScaleOf(a + b) == ScaleOf(a)
  {
    hide UintOr0;
    if b == [] {
      assert a + b == a;
    } else {
      var init := b[..|b| - 1];
      assert (a + b)[..|a + b| - 1] == a + init;
      assert (a + b)[|a + b| - 1] == b[|b| - 1] && b[|b| - 1] in b;
      ScaleConcat(a, init);
    }
  }

  lemma ScaleSnoc(a: seq<Element>, e: Element)
    ensures ScaleOf(a + [e]) == if e.id == ID_TIMESTAMP_SCALE && UintOr0(e.data) > 0 then UintOr0(e.data)
      else ScaleOf(a)
  {
    hide UintOr0;
    assert (a + [e])[..|a|] == a;
  }

  lemma {:induction false} KeptInfoSnoc(a: seq<Element>, e: Element)
    ensures KeptInfo(a + [e]) == KeptInfo(a) + (if DroppedInfo(e.id) then [] else [e])
  {
    hide DroppedInfo;
    if a != [] {
      KeptInfoSnoc(a[1..], e);
      assert (a + [e])[1..] == a[1..] + [e];
      Assoc(if DroppedInfo(a[0].id) then [] else [a[0]], KeptInfo(a[1..]), if DroppedInfo(e.id) then [] else [e]);
    } else {
      assert (a + [e])[1..] == [] && (a + [e])[0] == e;
      assert KeptInfo([]) == [];
    }
  }

  /** Dropping elements of the Info does not change its timestamp scale. */
  lemma {:induction false} KeptScale(es: seq<Element>)
    ensures ScaleOf(KeptInfo(es)) == ScaleOf(es)
  {
    hide UintOr0, KeptInfo, DroppedInfo;
    if es == [] {
      NothingKept();
    } else {
      var init, last := es[..|es| - 1], es[|es| - 1];
      KeptScale(init);
      InitLast(es);
      KeptInfoSnoc(init, last);
      ScaleNotDropped();
      ScaleSnoc(KeptInfo(init), last);
      assert KeptInfo(init) + [] == KeptInfo(init);
    }
  }

  lemma NothingKept()
    ensures KeptInfo([]) == []
  {
  }

  lemma ScaleNotDropped()
    ensures !DroppedInfo(ID_TIMESTAMP_SCALE)
  {
  }

  lemma {:induction false} KeptInfoElements(es: seq<Element>)
    requires AllElements(es)
    ensures AllElements(KeptInfo(es))
  {
    hide IsElement;
    if es != [] { KeptInfoElements(es[1..]); }
  }

  /** The clip's Info reads back as written: the source's scale, and the given duration and title. */
  lemma InfoRead(m: Meta, duration: Bytes, title: Bytes)
    requires AllElements(m.infoChildren) && |duration| < TWO56 - 1 && |title| < TWO56 - 1
    ensures var es := NewInfo(m, duration, title);
      && Elements(Flat(es)) == Ok(es) && ScaleOf(es) == ScaleOf(m.infoChildren)
      && DurationOf(es) == duration && LastData(es, ID_TITLE) == Some(title)
  {
    hide IsElement, EncodeElement, KeptInfo, ScaleOf, Elements, LastData, Flat;
    var kept, d, t := KeptInfo(m.infoChildren), Encoded(ID_DURATION, duration), Encoded(ID_TITLE, title);
    EncodedIsElement(ID_DURATION, duration);
    EncodedIsElement(ID_TITLE, title);
    KeptInfoElements(m.infoChildren);
    ElementsOfFlat(NewInfo(m, duration, title));
    KeptScale(m.infoChildren);
    ScaleConcat(kept, [d, t]);
    LastEnd(kept, d, t);
  }

  lemma LastEnd(kept: seq<Element>, d: Element, t: Element)
    requires d.id == ID_DURATION && t.id == ID_TITLE
    ensures LastData(kept + [d, t], ID_DURATION) == Some(d.data) && LastData(kept + [d, t], ID_TITLE) == Some(t.data)
  {
    var es := kept + [d, t];
    assert es[|es| - 1] == t && es[..|es| - 1] == kept + [d];
    assert (kept + [d])[|kept|] == d;
  }

  lemma {:induction false} KeptTracksElements(es: seq<Element>)
    requires AllElements(es)
    ensures AllElements(KeptTracks(es)) && |Flat(KeptTracks(es))| <= |Flat(es)|
  {
    hide IsElement;
    if es != [] {
      KeptTracksElements(es[1..]);
      var rest := KeptTracks(es[1..]);
      assert ([es[0]] + rest)[1..] == rest && [] + rest == rest;
    }
  }

  lemma {:induction false} KeptVideo(es: seq<Element>, found: nat)
    ensures VideoIn(KeptTracks(es), found) == VideoIn(es, found)
  {
    hide LastUint, Elements;
    if es != [] {
      var rest := KeptTracks(es[1..]);
      assert ([es[0]] + rest)[1..] == rest && [] + rest == rest;
      if es[0].id != ID_TRACK_ENTRY {
        KeptVideo(es[1..], found);
      } else if Elements(es[0].data).Ok? {
        var kids := Elements(es[0].data).value;
        KeptVideo(es[1..], if LastUint(kids, ID_TRACK_TYPE) == 1 && found == 0 then LastUint(kids, ID_TRACK_NUMBER)
          else found);
      }
    }
  }

  /** The clip's Tracks read back as the source's without checksums and padding, with the same video track. */
  lemma TracksRead(m: Meta)
    requires AllElements(m.tracksChildren)
    ensures var es := KeptTracks(m.tracksChildren);
      Elements(Flat(es)) == Ok(es) && VideoIn(es, 0) == VideoIn(m.tracksChildren, 0)
        && |Flat(es)| <= |Flat(m.tracksChildren)|
  {
    hide IsElement, Elements, VideoIn, Flat, KeptTracks;
    KeptTracksElements(m.tracksChildren);
    ElementsOfFlat(KeptTracks(m.tracksChildren));
    KeptVideo(m.tracksChildren, 0);
  }
}

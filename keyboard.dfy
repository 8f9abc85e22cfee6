/**
 * A piano keyboard widget: the key layout for a range of notes, the hit test
 * that finds the key under a point (black keys lie on top of white keys), the
 * velocity taken from how far down the key it is struck, and the registry of
 * contacts (touches and the mouse) that each hold a note.
 */
module KeyboardWidget {
  import opened Options
  import opened JsMath
  import opened Geometry
  import opened TouchEvents
  import opened Midi

  // ---------------------------------------------------------------------------
  // Key layout
  // ---------------------------------------------------------------------------

  datatype NoteInfo = NoteInfo(name: string, black: bool)

  /** Name and colour of each of the twelve semitones from C. */
  const NOTES: seq<NoteInfo> := [
    NoteInfo("C", false),
    NoteInfo("C#", true),
    NoteInfo("D", false),
    NoteInfo("D#", true),
    NoteInfo("E", false),
    NoteInfo("F", false),
    NoteInfo("F#", true),
    NoteInfo("G", false),
    NoteInfo("G#", true),
    NoteInfo("A", false),
    NoteInfo("Bb", true),
    NoteInfo("B", false)
  ]

  /** The colour of a note's key, read from the table. */
  predicate IsBlack(midi: nat) {
    NOTES[midi % 12].black
  }

  /** The black keys are the pitch classes 1, 3, 6, 8 and 10 (C#, D#, F#, G# and Bb). */
  lemma BlackPitchClasses(midi: nat)
    ensures IsBlack(midi) <==> midi % 12 in {1, 3, 6, 8, 10}
  {
  }

  /** Two black keys are never neighbours. */
  lemma BlackKeysApart(m: nat)
    ensures IsBlack(m) ==> !IsBlack(m + 1)
  {
    var r := m % 12;
    assert (m + 1) % 12 == if r == 11 then 0 else r + 1;
  }

  /** A key of the keyboard: its note and its position among all the keys. */
  datatype Key = Key(midi: int, index: nat)

  /** The white keys among the first `n` keys of a keyboard starting at note `start`, in order. */
  function WhiteKeys(start: nat, n: nat): seq<Key> {
    if n == 0 then []
    else WhiteKeys(start, n - 1) + (if IsBlack(start + n - 1) then [] else [Key(start + n - 1, n - 1)])
  }

  /** The black keys among the first `n` keys of a keyboard starting at note `start`, in order. */
  function BlackKeys(start: nat, n: nat): seq<Key> {
    if n == 0 then []
    else BlackKeys(start, n - 1) + (if IsBlack(start + n - 1) then [Key(start + n - 1, n - 1)] else [])
  }

  /** The white keys and the black keys together are all `n` keys. */
  lemma {:induction false} KeyCounts(start: nat, n: nat)
    ensures |WhiteKeys(start, n)| + |BlackKeys(start, n)| == n
  {
    if n > 0 {
      KeyCounts(start, n - 1);
    }
  }

  /**
   * Since black keys are never neighbours, at most half of the keys, rounded
   * up, are black, and only rounded up when the last key is black.
   */
  lemma {:induction false} BlackKeysSparse(start: nat, n: nat)
    ensures |BlackKeys(start, n)| <= (n + if n > 0 && IsBlack(start + n - 1) then 1 else 0) / 2
    ensures |BlackKeys(start, n)| <= (n + 1) / 2
  {
    if n > 1 {
      BlackKeysSparse(start, n - 1);
      BlackKeysApart(start + n - 2);
    }
  }

  /** `whitesBefore`: how many of the keys before index `i` are white, which is the number of white keys placed before key `i`. */
  function WhitesBefore(start: nat, i: nat): (w: nat)
    ensures w == |WhiteKeys(start, i)|
  {
    if i == 0 then 0
    else WhitesBefore(start, i - 1) + (if IsBlack(start + i - 1) then 0 else 1)
  }

  /**
   * A key is among the white (black) keys exactly when its index is in range,
   * its note is `start` plus its index, and that note is white (black); the two
   * lists together hold every key once.
   */
  lemma {:induction false} KeyClassification(start: nat, n: nat)
    ensures forall k :: k in WhiteKeys(start, n) <==> k.index < n && k.midi == start + k.index && !IsBlack(k.midi)
    ensures forall k :: k in BlackKeys(start, n) <==> k.index < n && k.midi == start + k.index && IsBlack(k.midi)
    ensures |WhiteKeys(start, n)| + |BlackKeys(start, n)| == n
  {
    forall k ensures k in WhiteKeys(start, n) <==> k.index < n && k.midi == start + k.index && !IsBlack(k.midi) {
      WhiteKeyMember(start, n, k);
    }
    forall k ensures k in BlackKeys(start, n) <==> k.index < n && k.midi == start + k.index && IsBlack(k.midi) {
      BlackKeyMember(start, n, k);
    }
    KeyCounts(start, n);
  }

  lemma {:induction false} WhiteKeyMember(start: nat, n: nat, k: Key)
    ensures k in WhiteKeys(start, n) <==> k.index < n && k.midi == start + k.index && !IsBlack(k.midi)
  {
    if n > 0 {
      WhiteKeyMember(start, n - 1, k);
    }
  }

  lemma {:induction false} BlackKeyMember(start: nat, n: nat, k: Key)
    ensures k in BlackKeys(start, n) <==> k.index < n && k.midi == start + k.index && IsBlack(k.midi)
  {
    if n > 0 {
      BlackKeyMember(start, n - 1, k);
    }
  }

  /** The white keys of a shorter keyboard are the first white keys of a longer one. */
  lemma {:induction false} WhiteKeysPrefix(start: nat, i: nat, n: nat)
    requires i <= n
    ensures |WhiteKeys(start, i)| <= |WhiteKeys(start, n)|
    ensures WhiteKeys(start, n)[..|WhiteKeys(start, i)|] == WhiteKeys(start, i)
  {
    if i < n {
      WhiteKeysPrefix(start, i, n - 1);
      var a, b := WhiteKeys(start, i), WhiteKeys(start, n - 1);
      assert WhiteKeys(start, n)[..|b|] == b;
      assert b[..|a|] == a;
    }
  }

  /**
   * A black key at index `i` sits on the boundary after white key number
   * `whitesBefore(i)`: the white key just before it in the list of white keys is
   * key i - 1, and the one just after it is key i + 1.
   */
  lemma BlackKeyBetweenWhites(start: nat, n: nat, i: nat)
    requires i < n && IsBlack(start + i)
    ensures
      var w, whites := WhitesBefore(start, i), WhiteKeys(start, n);
      && w <= |whites|
      && (i > 0 ==> w > 0 && whites[w - 1] == Key(start + i - 1, i - 1))
      && (i + 1 < n ==> w < |whites| && whites[w] == Key(start + i + 1, i + 1))
  {
    WhiteKeysPrefix(start, i, n);
    if i > 0 {
      WhiteKeyBeforeBlack(start, n, i);
    }
    if i + 1 < n {
      WhiteKeyAfterBlack(start, n, i);
    }
  }

  lemma WhiteKeyBeforeBlack(start: nat, n: nat, i: nat)
    requires 0 < i < n && IsBlack(start + i)
    ensures
      var w, whites := |WhiteKeys(start, i)|, WhiteKeys(start, n);
      0 < w <= |whites| && whites[w - 1] == Key(start + i - 1, i - 1)
  {
    var whites, before := WhiteKeys(start, n), WhiteKeys(start, i);
    BlackKeysApart(start + i - 1);
    LastWhite(start, i);
    WhiteKeysPrefix(start, i, n);
    assert whites[|before| - 1] == whites[..|before|][|before| - 1];
  }

  /** When key i - 1 is white, it is the last of the white keys before key i. */
  lemma LastWhite(start: nat, i: nat)
    requires 0 < i && !IsBlack(start + i - 1)
    ensures
      var before := WhiteKeys(start, i);
      0 < |before| && before[|before| - 1] == Key(start + i - 1, i - 1)
  {
  }

  lemma WhiteKeyAfterBlack(start: nat, n: nat, i: nat)
    requires i + 1 < n && IsBlack(start + i)
    ensures
      var w, whites := |WhiteKeys(start, i)|, WhiteKeys(start, n);
      w < |whites| && whites[w] == Key(start + i + 1, i + 1)
  {
    var whites, before, upto := WhiteKeys(start, n), WhiteKeys(start, i), WhiteKeys(start, i + 2);
    WhitesAfterBlack(start, i);
    assert |upto| == |before| + 1 && upto[|before|] == Key(start + i + 1, i + 1);
    WhiteKeysPrefix(start, i + 2, n);
    assert whites[|before|] == whites[..|upto|][|before|];
  }

  /** The key after a black key is white, and is the next white key. */
  lemma WhitesAfterBlack(start: nat, i: nat)
    requires IsBlack(start + i)
    ensures WhiteKeys(start, i + 2) == WhiteKeys(start, i) + [Key(start + i + 1, i + 1)]
  {
    BlackKeysApart(start + i);
    var next := start + i + 1;
    assert !IsBlack(next);
    assert WhiteKeys(start, i + 1) == WhiteKeys(start, i);
    assert WhiteKeys(start, i + 2) == WhiteKeys(start, i + 1) + [Key(next, i + 1)];
  }

  /** One more key joins the white keys or the black keys, by its colour. */
  lemma LayoutStep(start: nat, i: nat)
    ensures !IsBlack(start + i) ==>
      WhiteKeys(start, i + 1) == WhiteKeys(start, i) + [Key(start + i, i)] && BlackKeys(start, i + 1) == BlackKeys(start, i)
    ensures IsBlack(start + i) ==>
      WhiteKeys(start, i + 1) == WhiteKeys(start, i) && BlackKeys(start, i + 1) == BlackKeys(start, i) + [Key(start + i, i)]
  {
  }

  /** build(): walks the keys in order, sorting each into the white or the black keys by its semitone. */
  method Build(startMidi: nat, numKeys: nat) returns (keys: seq<Key>, whiteKeys: seq<Key>, blackKeys: seq<Key>)
    ensures |keys| == numKeys
    ensures forall i :: 0 <= i < numKeys ==> keys[i] == Key(startMidi + i, i)
    ensures whiteKeys == WhiteKeys(startMidi, numKeys)
    ensures blackKeys == BlackKeys(startMidi, numKeys)
    ensures |whiteKeys| + |blackKeys| == numKeys
  {
    keys, whiteKeys, blackKeys := [], [], [];
    var i := 0;
    while i < numKeys
      invariant 0 <= i <= numKeys
      invariant |keys| == i
      invariant forall j :: 0 <= j < i ==> keys[j] == Key(startMidi + j, j)
      invariant whiteKeys == WhiteKeys(startMidi, i)
      invariant blackKeys == BlackKeys(startMidi, i)
    {
      var midi := startMidi + i;
      LayoutStep(startMidi, i);
      if IsBlack(midi) {
        blackKeys := blackKeys + [Key(midi, i)];
      } else {
        whiteKeys := whiteKeys + [Key(midi, i)];
      }
      assert whiteKeys == WhiteKeys(startMidi, i + 1) && blackKeys == BlackKeys(startMidi, i + 1);
      keys := keys + [Key(midi, i)];
      i := i + 1;
    }
    KeyCounts(startMidi, numKeys);
  }

  // ---------------------------------------------------------------------------
  // Hit test and velocity
  // ---------------------------------------------------------------------------

  /** Every key in `keys` has a rectangle in `rects`, the bounding boxes of all keys by index. */
  predicate HasRects(keys: seq<Key>, rects: seq<Rect>) {
    forall k :: k in keys ==> k.index < |rects|
  }

  /** The position in `keys` of the first key whose rectangle contains the point, or `|keys|` if none does. */
  function FirstHitIndex(keys: seq<Key>, rects: seq<Rect>, x: real, y: real): (j: nat)
    requires HasRects(keys, rects)
    ensures j <= |keys|
    ensures j < |keys| ==> Contains(rects[keys[j].index], x, y)
    ensures forall i :: 0 <= i < j ==> !Contains(rects[keys[i].index], x, y)
  {
    if keys == [] then 0
    else if Contains(rects[keys[0].index], x, y) then 0
    else 1 + FirstHitIndex(keys[1..], rects, x, y)
  }

  /**
   * The key under a point: a black key whenever some black key's rectangle
   * contains it (black keys are drawn on top), otherwise a white key whose
   * rectangle contains it, and none if no rectangle does.
   */
  function KeyAt(blackKeys: seq<Key>, whiteKeys: seq<Key>, rects: seq<Rect>, x: real, y: real): (hit: Option<Key>)
    requires HasRects(blackKeys, rects) && HasRects(whiteKeys, rects)
    ensures (exists k :: k in blackKeys && Contains(rects[k.index], x, y)) ==>
      hit.Some? && hit.value in blackKeys && Contains(rects[hit.value.index], x, y)
    ensures !(exists k :: k in blackKeys && Contains(rects[k.index], x, y)) ==>
      && (hit.Some? ==> hit.value in whiteKeys && Contains(rects[hit.value.index], x, y))
      && (hit.None? <==> !(exists k :: k in whiteKeys && Contains(rects[k.index], x, y)))
  {
    var b := FirstHitIndex(blackKeys, rects, x, y);
    if b < |blackKeys| then Some(blackKeys[b])
    else
      var w := FirstHitIndex(whiteKeys, rects, x, y);
      if w < |whiteKeys| then Some(whiteKeys[w]) else None
  }

  /** getKeyAt: searches the black keys, then the white keys, and returns the first whose rectangle contains the point. */
  method GetKeyAt(blackKeys: seq<Key>, whiteKeys: seq<Key>, rects: seq<Rect>, x: real, y: real) returns (hit: Option<Key>)
    requires HasRects(blackKeys, rects) && HasRects(whiteKeys, rects)
    ensures hit == KeyAt(blackKeys, whiteKeys, rects, x, y)
  {
    var i := 0;
    while i < |blackKeys|
      invariant 0 <= i <= |blackKeys|
      invariant forall j :: 0 <= j < i ==> !Contains(rects[blackKeys[j].index], x, y)
    {
      if Contains(rects[blackKeys[i].index], x, y) {
        return Some(blackKeys[i]);
      }
      i := i + 1;
    }
    i := 0;
    while i < |whiteKeys|
      invariant 0 <= i <= |whiteKeys|
      invariant forall j :: 0 <= j < i ==> !Contains(rects[whiteKeys[j].index], x, y)
    {
      if Contains(rects[whiteKeys[i].index], x, y) {
        return Some(whiteKeys[i]);
      }
      i := i + 1;
    }
    return None;
  }

  /**
   * calcVelocity: the further down the key it is struck, the louder; the top
   * edge gives 1 and the bottom edge 127, always within [1, 127].
   */
  function CalcVelocity(clientY: real, key: Rect): (v: int)
    requires HasHeight(key)
    ensures 1 <= v <= 127
    ensures clientY <= key.top ==> v == 1
    ensures clientY >= key.bottom ==> v == 127
  {
    VerticalRatioOutside(clientY, key);
    RoundHalfUp(1.0 + Clamp01(VerticalRatio(clientY, key)) * 126.0)
  }

  /** Striking a key lower never gives a lower velocity. */
  lemma VelocityMonotone(y1: real, y2: real, key: Rect)
    requires HasHeight(key) && y1 <= y2
    ensures CalcVelocity(y1, key) <= CalcVelocity(y2, key)
  {
    VerticalRatioMonotone(y1, y2, key);
    Clamp01Monotone(VerticalRatio(y1, key), VerticalRatio(y2, key));
    RoundHalfUpMonotone(1.0 + Clamp01(VerticalRatio(y1, key)) * 126.0, 1.0 + Clamp01(VerticalRatio(y2, key)) * 126.0);
  }

  // ---------------------------------------------------------------------------
  // Contacts and the notes they hold
  // ---------------------------------------------------------------------------

  /** A touch, by its identifier, or the mouse (the source's 'mouse' key). */
  datatype ContactId = Finger(identifier: int) | Mouse

  /** The contact registry (`activeTouches`) with the messages the keyboard has emitted so far. */
  datatype Contacts = Contacts(tracked: map<ContactId, int>, emitted: seq<Message>)

  /** How many tracked contacts hold note `n`. */
  function Bound(tracked: map<ContactId, int>, n: int): nat {
    |set id | id in tracked && tracked[id] == n|
  }

  /** A contact lands on a key: it is bound to the note, and the note starts. */
  function Press(c: Contacts, id: ContactId, note: int, velocity: int): Contacts {
    Contacts(c.tracked[id := note], c.emitted + [NoteOnMsg(note, velocity, 0)])
  }

  /** A contact ends: if it is tracked its note ends and the binding goes; an untracked contact changes nothing. */
  function Release(c: Contacts, id: ContactId): Contacts {
    if id in c.tracked then Contacts(c.tracked - {id}, c.emitted + [NoteOffMsg(c.tracked[id], 0)])
    else c
  }

  /** handleTouchStart and mousedown: a contact that hits a key presses it with the velocity of where it hit; one that misses changes nothing. */
  function StartContact(c: Contacts, id: ContactId, hit: Option<Key>, rects: seq<Rect>, y: real): Contacts
    requires hit.Some? ==> hit.value.index < |rects| && HasHeight(rects[hit.value.index])
  {
    if hit.None? then c
    else Press(c, id, hit.value.midi, CalcVelocity(y, rects[hit.value.index]))
  }

  /**
   * `activeTouches.set(id, note)` with its note-on: the contact is tracked on
   * the note, replacing any earlier binding, every other binding stays, and the
   * log grows by exactly one note-on of that note at that velocity.
   */
  lemma PressEffect(c: Contacts, id: ContactId, note: int, velocity: int)
    ensures
      var r := Press(c, id, note, velocity);
      && r.tracked.Keys == c.tracked.Keys + {id} && r.tracked[id] == note
      && r.tracked - {id} == c.tracked - {id}
      && |r.emitted| == |c.emitted| + 1 && r.emitted[..|c.emitted|] == c.emitted
      && r.emitted[|c.emitted|] == [0x90, note, velocity]
  {
    assert (c.emitted + [NoteOnMsg(note, velocity, 0)])[..|c.emitted|] == c.emitted;
  }

  /**
   * `activeTouches.delete(id)` after its note-off: afterwards the contact is not
   * tracked and every other binding stays; a tracked contact adds exactly one
   * note-off of the note it held, an untracked one changes nothing.
   */
  lemma ReleaseEffect(c: Contacts, id: ContactId)
    ensures
      var r := Release(c, id);
      && id !in r.tracked && r.tracked.Keys == c.tracked.Keys - {id}
      && (forall other :: other in r.tracked ==> r.tracked[other] == c.tracked[other])
      && (id !in c.tracked ==> r == c)
      && (id in c.tracked ==>
            |r.emitted| == |c.emitted| + 1 && r.emitted[..|c.emitted|] == c.emitted &&
            r.emitted[|c.emitted|] == [0x80, c.tracked[id], 0])
  {
    if id in c.tracked {
      assert (c.emitted + [NoteOffMsg(c.tracked[id], 0)])[..|c.emitted|] == c.emitted;
    }
  }

  /**
   * A contact that misses every key changes nothing; one that hits a key is
   * tracked on that key's note, and exactly one note-on of it goes out, at a
   * velocity in [1, 127].
   */
  lemma StartContactEffect(c: Contacts, id: ContactId, hit: Option<Key>, rects: seq<Rect>, y: real)
    requires hit.Some? ==> hit.value.index < |rects| && HasHeight(rects[hit.value.index])
    ensures hit.None? ==> StartContact(c, id, hit, rects, y) == c
    ensures hit.Some? ==>
      var r := StartContact(c, id, hit, rects, y);
      && id in r.tracked && r.tracked[id] == hit.value.midi
      && exists v :: 1 <= v <= 127 && r.emitted == c.emitted + [NoteOnMsg(hit.value.midi, v, 0)]
  {
    if hit.Some? {
      var v := CalcVelocity(y, rects[hit.value.index]);
      assert StartContact(c, id, hit, rects, y).emitted == c.emitted + [NoteOnMsg(hit.value.midi, v, 0)];
    }
  }


  /** No note has been ended more often than the contacts holding it account for. */
  ghost predicate NoExtraOffs(c: Contacts) {
    forall n :: Sounding(c.emitted, n) >= Bound(c.tracked, n)
  }

  /** Every note sounding is held by exactly as many contacts as started it: nothing is stuck. */
  ghost predicate Balanced(c: Contacts) {
    forall n :: Sounding(c.emitted, n) == Bound(c.tracked, n)
  }

  lemma BoundAfterSet(m: map<ContactId, int>, k: ContactId, v: int, n: int)
    ensures Bound(m[k := v], n) == Bound(m, n) - (if k in m && m[k] == n then 1 else 0) + (if v == n then 1 else 0)
  {
    assert m[k := v] - {k} == m - {k};
    BoundAfterRemove(m[k := v], k, n);
    BoundAfterRemove(m, k, n);
  }

  lemma BoundAfterRemove(m: map<ContactId, int>, k: ContactId, n: int)
    ensures Bound(m - {k}, n) == Bound(m, n) - (if k in m && m[k] == n then 1 else 0)
  {
    var m' := m - {k};
    var s := set id | id in m && m[id] == n;
    var s' := set id | id in m' && m'[id] == n;
    assert s' == s - {k};
    CardRemove(s, k);
  }

  lemma CardRemove<T>(s: set<T>, x: T)
    ensures |s - {x}| == |s| - (if x in s then 1 else 0)
  {
    if x in s {
      assert s == (s - {x}) + {x};
    } else {
      assert s - {x} == s;
    }
  }

  /** Pressing keeps note-offs from outrunning the contacts: a note-on never lowers any note's count. */
  lemma PressKeepsNoExtraOffs(c: Contacts, id: ContactId, note: int, velocity: int)
    requires NoExtraOffs(c) && velocity != 0
    ensures NoExtraOffs(Press(c, id, note, velocity))
  {
    forall n ensures Sounding(Press(c, id, note, velocity).emitted, n) >= Bound(Press(c, id, note, velocity).tracked, n) {
      SoundingAppend(c.emitted, [NoteOnMsg(note, velocity, 0)], n);
      NoteMessagesDelta(note, velocity, n);
      BoundAfterSet(c.tracked, id, note, n);
      assert [NoteOnMsg(note, velocity, 0)][..0] == [];
    }
  }

  /** Releasing keeps note-offs from outrunning the contacts: each note-off removes the binding it ends. */
  lemma ReleaseKeepsNoExtraOffs(c: Contacts, id: ContactId)
    requires NoExtraOffs(c)
    ensures NoExtraOffs(Release(c, id))
  {
    if id in c.tracked {
      var note := c.tracked[id];
      forall n ensures Sounding(Release(c, id).emitted, n) >= Bound(Release(c, id).tracked, n) {
        SoundingAppend(c.emitted, [NoteOffMsg(note, 0)], n);
        NoteMessagesDelta(note, 1, n);
        BoundAfterRemove(c.tracked, id, n);
        assert [NoteOffMsg(note, 0)][..0] == [];
      }
    }
  }

  /** A contact that was not already tracked starts exactly one note, and the registry stays balanced. */
  lemma PressKeepsBalance(c: Contacts, id: ContactId, note: int, velocity: int)
    requires Balanced(c) && id !in c.tracked && velocity != 0
    ensures Balanced(Press(c, id, note, velocity))
  {
    forall n ensures Sounding(Press(c, id, note, velocity).emitted, n) == Bound(Press(c, id, note, velocity).tracked, n) {
      SoundingAppend(c.emitted, [NoteOnMsg(note, velocity, 0)], n);
      NoteMessagesDelta(note, velocity, n);
      BoundAfterSet(c.tracked, id, note, n);
      assert [NoteOnMsg(note, velocity, 0)][..0] == [];
    }
  }

  /** Ending a contact keeps the registry balanced: exactly the note it held ends. */
  lemma ReleaseKeepsBalance(c: Contacts, id: ContactId)
    requires Balanced(c)
    ensures Balanced(Release(c, id))
  {
    if id in c.tracked {
      var note := c.tracked[id];
      forall n ensures Sounding(Release(c, id).emitted, n) == Bound(Release(c, id).tracked, n) {
        SoundingAppend(c.emitted, [NoteOffMsg(note, 0)], n);
        NoteMessagesDelta(note, 1, n);
        BoundAfterRemove(c.tracked, id, n);
        assert [NoteOffMsg(note, 0)][..0] == [];
      }
    }
  }

  /** A second end of the same contact sends nothing more. */
  lemma ReleaseIdempotent(c: Contacts, id: ContactId)
    ensures id !in Release(c, id).tracked
    ensures Release(Release(c, id), id) == Release(c, id)
  {
  }

  /**
   * A contact that starts again while still tracked (its end never arrived, or
   * a second mousedown before the mouseup) takes over the binding: the note it
   * held is never ended, although nothing is tracked any more.
   */
  lemma RestartLeavesNoteSounding()
    ensures
      var c := Release(Press(Press(Contacts(map[], []), Mouse, 60, 100), Mouse, 62, 100), Mouse);
      c.tracked == map[] && Sounding(c.emitted, 60) == 1 && Sounding(c.emitted, 62) == 0
  {
    var c0 := Contacts(map[], []);
    var c1 := Press(c0, Mouse, 60, 100);
    var c2 := Press(c1, Mouse, 62, 100);
    var c := Release(c2, Mouse);
    var log := [NoteOnMsg(60, 100, 0), NoteOnMsg(62, 100, 0), NoteOffMsg(62, 0)];
    assert c.emitted == log;
    assert log[..2] == [NoteOnMsg(60, 100, 0), NoteOnMsg(62, 100, 0)];
    assert log[..2][..1] == [NoteOnMsg(60, 100, 0)];
    assert log[..2][..1][..0] == [];
    NoteMessagesDelta(60, 100, 60);
    NoteMessagesDelta(60, 100, 62);
    NoteMessagesDelta(62, 100, 60);
    NoteMessagesDelta(62, 100, 62);
    assert Sounding(log[..2][..1], 60) == 1 && Sounding(log[..2][..1], 62) == 0;
    assert Sounding(log[..2], 60) == 1 && Sounding(log[..2], 62) == 1;
  }

  /**
   * From a balanced registry, starting a contact that is still tracked on a
   * different note leaves the registry unbalanced: the note it held now sounds
   * once more than the contacts holding it, and nothing will ever end it.
   */
  lemma RebindLeavesStuckNote(c: Contacts, id: ContactId, note: int, velocity: int)
    requires Balanced(c) && id in c.tracked && c.tracked[id] != note && velocity != 0
    ensures
      var held, r := c.tracked[id], Press(c, id, note, velocity);
      Sounding(r.emitted, held) == Bound(r.tracked, held) + 1
    ensures !Balanced(Press(c, id, note, velocity))
  {
    var held := c.tracked[id];
    SoundingAppend(c.emitted, [NoteOnMsg(note, velocity, 0)], held);
    NoteMessagesDelta(note, velocity, held);
    BoundAfterSet(c.tracked, id, note, held);
    assert [NoteOnMsg(note, velocity, 0)][..0] == [];
  }

  /** handleTouchStart on the registry: touch `t` starts as a contact at the key under it, if any. */
  function TouchStarted(c: Contacts, blackKeys: seq<Key>, whiteKeys: seq<Key>, rects: seq<Rect>, t: TouchPoint): Contacts
    requires HasRects(blackKeys, rects) && HasRects(whiteKeys, rects)
    requires forall r :: r in rects ==> HasHeight(r)
  {
    StartContact(c, Finger(t.identifier), KeyAt(blackKeys, whiteKeys, rects, t.clientX, t.clientY), rects, t.clientY)
  }

  /** A touch that lands on a key is tracked, under its identifier, on the note of the key under it; one that lands on none changes nothing. */
  lemma TouchStartedEffect(c: Contacts, blackKeys: seq<Key>, whiteKeys: seq<Key>, rects: seq<Rect>, t: TouchPoint)
    requires HasRects(blackKeys, rects) && HasRects(whiteKeys, rects)
    requires forall r :: r in rects ==> HasHeight(r)
    ensures
      var hit, r := KeyAt(blackKeys, whiteKeys, rects, t.clientX, t.clientY), TouchStarted(c, blackKeys, whiteKeys, rects, t);
      && (hit.None? ==> r == c)
      && (hit.Some? ==>
            (hit.value in blackKeys || hit.value in whiteKeys) &&
            Finger(t.identifier) in r.tracked && r.tracked[Finger(t.identifier)] == hit.value.midi &&
            |r.emitted| == |c.emitted| + 1)
  {
    var hit := KeyAt(blackKeys, whiteKeys, rects, t.clientX, t.clientY);
    StartContactEffect(c, Finger(t.identifier), hit, rects, t.clientY);
  }


  /** The changed touches of one touch event, started one after the other. */
  function StartAll(c: Contacts, blackKeys: seq<Key>, whiteKeys: seq<Key>, rects: seq<Rect>, touches: seq<TouchPoint>): Contacts
    requires HasRects(blackKeys, rects) && HasRects(whiteKeys, rects)
    requires forall r :: r in rects ==> HasHeight(r)
  {
    if touches == [] then c
    else
      TouchStarted(StartAll(c, blackKeys, whiteKeys, rects, touches[..|touches| - 1]), blackKeys, whiteKeys, rects, touches[|touches| - 1])
  }

  /** The changed touches of one touchend or touchcancel event, ended one after the other. */
  function EndAll(c: Contacts, touches: seq<TouchPoint>): Contacts {
    if touches == [] then c
    else Release(EndAll(c, touches[..|touches| - 1]), Finger(touches[|touches| - 1].identifier))
  }

  /** Starting the touches up to position i + 1 is starting those up to position i, then touch i. */
  lemma StartAllStep(c: Contacts, blackKeys: seq<Key>, whiteKeys: seq<Key>, rects: seq<Rect>, touches: seq<TouchPoint>, i: nat)
    requires HasRects(blackKeys, rects) && HasRects(whiteKeys, rects)
    requires forall r :: r in rects ==> HasHeight(r)
    requires i < |touches|
    ensures StartAll(c, blackKeys, whiteKeys, rects, touches[..i + 1]) ==
      TouchStarted(StartAll(c, blackKeys, whiteKeys, rects, touches[..i]), blackKeys, whiteKeys, rects, touches[i])
  {
    assert touches[..i + 1][..i] == touches[..i];
  }

  /** Ending the touches up to position i + 1 is ending those up to position i, then touch i. */
  lemma EndAllStep(c: Contacts, touches: seq<TouchPoint>, i: nat)
    requires i < |touches|
    ensures EndAll(c, touches[..i + 1]) == Release(EndAll(c, touches[..i]), Finger(touches[i].identifier))
  {
    assert touches[..i + 1][..i] == touches[..i];
  }

  /** After a touchend or touchcancel, none of its touches is tracked, and every other contact keeps its note. */
  lemma {:induction false} EndAllReleases(c: Contacts, touches: seq<TouchPoint>)
    ensures forall t :: t in touches ==> Finger(t.identifier) !in EndAll(c, touches).tracked
    ensures forall id :: id in c.tracked && (forall t :: t in touches ==> id != Finger(t.identifier)) ==>
      id in EndAll(c, touches).tracked && EndAll(c, touches).tracked[id] == c.tracked[id]
    ensures EndAll(c, touches).tracked.Keys <= c.tracked.Keys
  {
    if touches != [] {
      var init := touches[..|touches| - 1];
      EndAllReleases(c, init);
      forall t | t in touches ensures Finger(t.identifier) !in EndAll(c, touches).tracked {
        if t != touches[|touches| - 1] {
          assert t in init;
        }
      }
      forall id | id in c.tracked && (forall t :: t in touches ==> id != Finger(t.identifier))
        ensures id in EndAll(c, touches).tracked && EndAll(c, touches).tracked[id] == c.tracked[id]
      {
        assert forall t :: t in init ==> t in touches;
      }
    }
  }

  /** Delivering the same touchend or touchcancel again sends nothing more and changes nothing. */
  lemma {:induction false} EndAllAgain(c: Contacts, touches: seq<TouchPoint>, again: seq<TouchPoint>)
    requires forall t :: t in again ==> t in touches
    ensures EndAll(EndAll(c, touches), again) == EndAll(c, touches)
  {
    if again != [] {
      EndAllAgain(c, touches, again[..|again| - 1]);
      EndAllReleases(c, touches);
    }
  }

  /** The key rectangles as laid out: one per key, each with a positive height. */
  predicate LaidOut(numKeys: nat, rects: seq<Rect>) {
    |rects| == numKeys && forall r :: r in rects ==> HasHeight(r)
  }

  class Keyboard {
    const startMidi: nat
    const numKeys: nat
    const keys: seq<Key>
    const whiteKeys: seq<Key>
    const blackKeys: seq<Key>
    const port: MidiOut
    /** Contact -> the note it holds. */
    var activeTouches: map<ContactId, int>
    ghost var emitted: seq<Message>

    ghost function State(): Contacts
      reads this
    {
      Contacts(activeTouches, emitted)
    }

    /** The layout that build() produced, and no note ended more often than started. */
    ghost predicate Valid()
      reads this
    {
      && |keys| == numKeys
      && (forall i :: 0 <= i < numKeys ==> keys[i] == Key(startMidi + i, i))
      && whiteKeys == WhiteKeys(startMidi, numKeys)
      && blackKeys == BlackKeys(startMidi, numKeys)
      && (forall k :: k in whiteKeys ==> k.index < numKeys)
      && (forall k :: k in blackKeys ==> k.index < numKeys)
      && NoExtraOffs(State())
    }

    constructor (port: MidiOut, startMidi: nat, numKeys: nat)
      ensures Valid()
      ensures this.port == port && this.startMidi == startMidi && this.numKeys == numKeys
      ensures activeTouches == map[] && emitted == []
    {
      var k, w, b := Build(startMidi, numKeys);
      KeyClassification(startMidi, numKeys);
      this.port := port;
      this.startMidi := startMidi;
      this.numKeys := numKeys;
      keys, whiteKeys, blackKeys := k, w, b;
      activeTouches := map[];
      emitted := [];
    }

    /** The contact `id` lands at (x, y): a key under it is pressed with the velocity of where it landed. */
    method Start(id: ContactId, x: real, y: real, rects: seq<Rect>)
      requires Valid() && LaidOut(numKeys, rects)
      modifies this, port
      ensures Valid()
      ensures State() == StartContact(old(State()), id, KeyAt(blackKeys, whiteKeys, rects, x, y), rects, y)
      ensures old(emitted) <= emitted
      ensures port.output == old(port.output)
      ensures port.sent == old(port.sent) + Gate(port.output, emitted[|old(emitted)|..])
    {
      var key := GetKeyAt(blackKeys, whiteKeys, rects, x, y);
      if key.None? {
        return;
      }
      var midi := key.value.midi;
      var velocity := CalcVelocity(y, rects[key.value.index]);
      PressKeepsNoExtraOffs(State(), id, midi, velocity);
      activeTouches := activeTouches[id := midi];
      port.NoteOn(midi, velocity);
      emitted := emitted + [NoteOnMsg(midi, velocity, 0)];
    }

    /** The contact `id` ends: its note, if it holds one, ends and the binding goes. */
    method End(id: ContactId)
      requires Valid()
      modifies this, port
      ensures Valid()
      ensures State() == Release(old(State()), id)
      ensures old(emitted) <= emitted
      ensures port.output == old(port.output)
      ensures port.sent == old(port.sent) + Gate(port.output, emitted[|old(emitted)|..])
    {
      ReleaseKeepsNoExtraOffs(State(), id);
      if id in activeTouches {
        var midi := activeTouches[id];
        port.NoteOff(midi);
        activeTouches := activeTouches - {id};
        emitted := emitted + [NoteOffMsg(midi, 0)];
      }
    }

    /** handleTouchStart. */
    method HandleTouchStart(touch: TouchPoint, rects: seq<Rect>)
      requires Valid() && LaidOut(numKeys, rects)
      modifies this, port
      ensures Valid()
      ensures State() == TouchStarted(old(State()), blackKeys, whiteKeys, rects, touch)
      ensures old(emitted) <= emitted
      ensures port.output == old(port.output)
      ensures port.sent == old(port.sent) + Gate(port.output, emitted[|old(emitted)|..])
    {
      Start(Finger(touch.identifier), touch.clientX, touch.clientY, rects);
    }

    /** handleTouchEnd. */
    method HandleTouchEnd(touch: TouchPoint)
      requires Valid()
      modifies this, port
      ensures Valid()
      ensures State() == Release(old(State()), Finger(touch.identifier))
      ensures old(emitted) <= emitted
      ensures port.output == old(port.output)
      ensures port.sent == old(port.sent) + Gate(port.output, emitted[|old(emitted)|..])
    {
      End(Finger(touch.identifier));
    }

    /** mousedown on the keyboard: the mouse is a contact like a touch. */
    method MouseDown(clientX: real, clientY: real, rects: seq<Rect>)
      requires Valid() && LaidOut(numKeys, rects)
      modifies this, port
      ensures Valid()
      ensures State() == StartContact(old(State()), Mouse, KeyAt(blackKeys, whiteKeys, rects, clientX, clientY), rects, clientY)
      ensures old(emitted) <= emitted
      ensures port.output == old(port.output)
      ensures port.sent == old(port.sent) + Gate(port.output, emitted[|old(emitted)|..])
    {
      Start(Mouse, clientX, clientY, rects);
    }

    /** The mouseup listener a mousedown installs: ends the mouse's note, if it holds one. */
    method MouseUp()
      requires Valid()
      modifies this, port
      ensures Valid()
      ensures State() == Release(old(State()), Mouse)
      ensures old(emitted) <= emitted
      ensures port.output == old(port.output)
      ensures port.sent == old(port.sent) + Gate(port.output, emitted[|old(emitted)|..])
    {
      End(Mouse);
    }

    /** The touchstart listener: each changed touch in turn. */
    method OnTouchStart(changed: seq<TouchPoint>, rects: seq<Rect>)
      requires Valid() && LaidOut(numKeys, rects)
      modifies this, port
      ensures Valid()
      ensures State() == StartAll(old(State()), blackKeys, whiteKeys, rects, changed)
      ensures old(emitted) <= emitted
      ensures port.output == old(port.output)
      ensures port.sent == old(port.sent) + Gate(port.output, emitted[|old(emitted)|..])
    {
      assert HasRects(blackKeys, rects) && HasRects(whiteKeys, rects);
      ghost var s0, sent0 := State(), port.sent;
      var i := 0;
      while i < |changed|
        invariant 0 <= i <= |changed|
        invariant Valid() && HasRects(blackKeys, rects) && HasRects(whiteKeys, rects)
        invariant State() == StartAll(s0, blackKeys, whiteKeys, rects, changed[..i])
        invariant s0.emitted <= emitted
        invariant port.output == old(port.output)
        invariant port.sent == sent0 + Gate(port.output, emitted[|s0.emitted|..])
      {
        ghost var before := emitted;
        StartAllStep(s0, blackKeys, whiteKeys, rects, changed, i);
        HandleTouchStart(changed[i], rects);
        GateSlices(port.output, s0.emitted, before, emitted);
        i := i + 1;
      }
      assert changed[..i] == changed;
    }

    /** The touchend listener: each changed touch in turn. */
    method OnTouchEnd(changed: seq<TouchPoint>)
      requires Valid()
      modifies this, port
      ensures Valid()
      ensures State() == EndAll(old(State()), changed)
      ensures old(emitted) <= emitted
      ensures port.output == old(port.output)
      ensures port.sent == old(port.sent) + Gate(port.output, emitted[|old(emitted)|..])
    {
      ghost var s0, sent0 := State(), port.sent;
      var i := 0;
      while i < |changed|
        invariant 0 <= i <= |changed|
        invariant Valid()
        invariant State() == EndAll(s0, changed[..i])
        invariant s0.emitted <= emitted
        invariant port.output == old(port.output)
        invariant port.sent == sent0 + Gate(port.output, emitted[|s0.emitted|..])
      {
        ghost var before := emitted;
        EndAllStep(s0, changed, i);
        HandleTouchEnd(changed[i]);
        GateSlices(port.output, s0.emitted, before, emitted);
        i := i + 1;
      }
      assert changed[..i] == changed;
    }

    /** The touchcancel listener is the touchend listener: a cancelled touch releases its note exactly as an ended one. */
    method OnTouchCancel(changed: seq<TouchPoint>)
      requires Valid()
      modifies this, port
      ensures Valid()
      ensures State() == EndAll(old(State()), changed)
      ensures old(emitted) <= emitted
      ensures port.output == old(port.output)
      ensures port.sent == old(port.sent) + Gate(port.output, emitted[|old(emitted)|..])
    {
      OnTouchEnd(changed);
    }
  }
}

/** Saving the tunnel editor's form: only edited fields are rewritten in the text. */
module TunnelPatch {
  import opened Wrappers
  import opened ConfText
  import opened TunnelDraft

  /** What is to be saved: the trimmed form, the fields it changes, and those the text sets. */
  datatype Edit = Edit(form: Draft, changed: set<Field>, present: set<Field>, ending: string, peerIndex: int)

  /** The lines put out so far, and the fields already taken care of. */
  datatype Progress = Progress(doc: seq<string>, written: set<Field>)

  function Write(p: Progress, e: Edit, f: Field): Progress {
    Progress(p.doc + Setting(f, e.form(f), e.ending), p.written + {f})
  }

  function WriteAll(p: Progress, e: Edit, fields: seq<Field>): Progress {
    if fields == [] then p else Write(WriteAll(p, e, fields[..|fields| - 1]), e, fields[|fields| - 1])
  }

  ghost predicate NoRepeat(fields: seq<Field>) {
    forall i, j :: 0 <= i < j < |fields| ==> fields[i] != fields[j]
  }

  /** The changed fields among some that nothing has written. */
  function Pending(e: Edit, fields: seq<Field>, written: set<Field>): (r: seq<Field>)
    ensures forall f :: f in r <==> f in fields && f in e.changed && f !in written
    ensures NoRepeat(fields) ==> NoRepeat(r)
  {
    if fields == [] then []
    else
      var n := |fields| - 1;
      var rest := Pending(e, fields[..n], written);
      if fields[n] in e.changed && fields[n] !in written then rest + [fields[n]] else rest
  }

  function SectionFields(at: Place, peerIndex: int): seq<Field> {
    if at.section == "interface" then INTERFACE_FIELDS
    else if at.section == "peer" && at.peer == peerIndex then PEER_FIELDS
    else []
  }

  /** A line feed before anything more is added. */
  function Terminated(doc: seq<string>, ending: string): seq<string> {
    if doc == [] then [ending]
    else
      var n := |doc| - 1;
      if Ends(doc[n]) then doc else doc[..n] + [doc[n] + ending]
  }

  function Step(p: Progress, e: Edit, before: seq<string>, raw: string): Progress {
    var at := PlaceAfter(before);
    var field := FieldOf(raw, at, e.peerIndex);
    if field.Some? && field.value in e.changed then
      if field.value in p.written then p else Write(p, e, field.value)
    else
      var copied := Progress(p.doc + [raw], p.written);
      if !IsHeader(Trim(raw)) then copied
      else
        var added := Pending(e, SectionFields(Enter(at, raw), e.peerIndex), e.present + p.written);
        if added == [] then copied
        else WriteAll(copied.(doc := Terminated(copied.doc, e.ending)), e, added)
  }

  function Begin(e: Edit): Progress {
    WriteAll(Progress([], {}), e, Pending(e, TRANSPORT_FIELDS, e.present))
  }

  function Steps(e: Edit, raws: seq<string>): Progress {
    if raws == [] then Begin(e)
    else
      var n := |raws| - 1;
      Step(Steps(e, raws[..n]), e, raws[..n], raws[n])
  }

  function PeerHeader(e: Edit): string {
    "[Peer]" + e.ending
  }

  /** Peer fields that found no section go into a new one. */
  function Finish(p: Progress, e: Edit): Progress {
    var added := Pending(e, PEER_FIELDS, p.written);
    if added == [] then p
    else WriteAll(p.(doc := Terminated(p.doc, e.ending) + [PeerHeader(e)]), e, added)
  }

  function Trimmed(draft: Draft): Draft {
    f => Trim(draft(f))
  }

  function EditOf(source: string, peerIndex: int, draft: Draft): Edit {
    var raws := Raws(source);
    Edit(
      Trimmed(draft),
      set f: Field | Trim(draft(f)) != Trim(Read(raws, peerIndex, f)),
      set f: Field | Occurs(raws, peerIndex, f),
      if HasCrLf(source) then "\r\n" else "\n",
      peerIndex)
  }

  predicate HasCrLf(source: string) {
    exists i :: 0 <= i < |source| - 1 && source[i] == '\r' && source[i + 1] == '\n'
  }

  /** The text that is saved. */
  function Patched(source: string, peerIndex: int, draft: Draft): string {
    var e := EditOf(source, peerIndex, draft);
    if e.changed == {} then source else Join(Finish(Steps(e, Raws(source)), e).doc)
  }

  // ---- What every step keeps ----

  ghost predicate Sane(e: Edit) {
    && (e.ending == "\n" || e.ending == "\r\n")
    && forall f :: e.form(f) == "" || Tight(e.form(f))
  }

  /** A line with its line feed. */
  function Full(raw: string, ending: string): string {
    if Ends(raw) then raw else raw + ending
  }

  /** The lines that set no changed field, in order. */
  function Kept(raws: seq<string>, e: Edit): seq<string> {
    if raws == [] then []
    else
      var before, raw := raws[..|raws| - 1], raws[|raws| - 1];
      var field := FieldOf(raw, PlaceAfter(before), e.peerIndex);
      Kept(before, e) + if field.Some? && field.value in e.changed then [] else [Full(raw, e.ending)]
  }

  /** What the saved lines read as: edited fields new, all others as in the source. */
  ghost predicate Shows(p: Progress, e: Edit, source: seq<string>, f: Field) {
    Read(p.doc, e.peerIndex, f) ==
    if f !in e.changed then Read(source, e.peerIndex, f)
    else if f in p.written && e.form(f) != "" then e.form(f)
    else Default(f)
  }

  ghost predicate Mirrors(p: Progress, e: Edit, source: seq<string>) {
    && PlaceAfter(p.doc) == PlaceAfter(source)
    && Kept(p.doc, e) == Kept(source, e)
    && forall f :: Shows(p, e, source, f)
  }

  lemma KeepOne(raws: seq<string>, raw: string, e: Edit)
    ensures Kept(raws + [raw], e) ==
            var field := FieldOf(raw, PlaceAfter(raws), e.peerIndex);
            Kept(raws, e) + if field.Some? && field.value in e.changed then [] else [Full(raw, e.ending)]
  {
  }

  /** A line that sets no changed field is copied. */
  lemma CopyKeeps(p: Progress, e: Edit, source: seq<string>, raw: string)
    requires Mirrors(p, e, source)
    requires var field := FieldOf(raw, PlaceAfter(source), e.peerIndex); field.None? || field.value !in e.changed
    ensures Mirrors(p.(doc := p.doc + [raw]), e, source + [raw])
  {
    hide Enter, FieldOf, ValueOf, Merge, Default, Read, Kept, PlaceAfter;
    KeepOne(p.doc, raw, e);
    KeepOne(source, raw, e);
    forall f ensures Shows(p.(doc := p.doc + [raw]), e, source + [raw], f) {
      assert Shows(p, e, source, f);
      Append(p.doc, raw, e.peerIndex, f);
      Append(source, raw, e.peerIndex, f);
    }
    Append(p.doc, raw, e.peerIndex, Carrier);
    Append(source, raw, e.peerIndex, Carrier);
  }

  /** A line that sets a changed field is left out. */
  lemma SkipKeeps(p: Progress, e: Edit, source: seq<string>, raw: string)
    requires Mirrors(p, e, source)
    requires var field := FieldOf(raw, PlaceAfter(source), e.peerIndex); field.Some? && field.value in e.changed
    ensures Mirrors(p, e, source + [raw])
  {
    hide FieldOf, ValueOf, Merge, Default, Read, Kept, PlaceAfter, IsHeader, Trim, Here;
    FieldPlace(raw, PlaceAfter(source), e.peerIndex);
    KeepOne(source, raw, e);
    forall f ensures Shows(p, e, source + [raw], f) {
      assert Shows(p, e, source, f);
      Append(source, raw, e.peerIndex, f);
    }
    Append(source, raw, e.peerIndex, Carrier);
  }

  /** A changed field is written once, where it is read. */
  lemma WriteKeeps(p: Progress, e: Edit, source: seq<string>, f: Field)
    requires Mirrors(p, e, source) && Sane(e)
    requires f in e.changed && f !in p.written && Here(f, PlaceAfter(source), e.peerIndex)
    ensures Mirrors(Write(p, e, f), e, source)
  {
    hide FieldOf, ValueOf, Read, Kept, PlaceAfter, IsHeader, Trim, Here, Tight;
    var value, next := e.form(f), Write(p, e, f);
    if value == "" {
      assert next.doc == p.doc;
      forall g ensures Shows(next, e, source, g) {
        assert Shows(p, e, source, g);
      }
    } else {
      hide Setting;
      WrittenLine(f, value, e.ending, PlaceAfter(source), e.peerIndex);
      var raw := Setting(f, value, e.ending)[0];
      assert next.doc == p.doc + [raw];
      KeepOne(p.doc, raw, e);
      forall g ensures Shows(next, e, source, g) {
        assert Shows(p, e, source, g);
        Append(p.doc, raw, e.peerIndex, g);
      }
      Append(p.doc, raw, e.peerIndex, Carrier);
    }
  }

  lemma WrittenLine(f: Field, value: string, ending: string, at: Place, peerIndex: int)
    requires Tight(value) && (ending == "\n" || ending == "\r\n") && Here(f, at, peerIndex)
    ensures |Setting(f, value, ending)| == 1
    ensures var raw := Setting(f, value, ending)[0];
            FieldOf(raw, at, peerIndex) == Some(f) && ValueOf(raw) == value && !IsHeader(Trim(raw))
  {
    SettingReads(f, value, ending, at, peerIndex);
  }

  lemma {:induction false} WriteAllKeeps(p: Progress, e: Edit, source: seq<string>, fields: seq<Field>)
    requires Mirrors(p, e, source) && Sane(e)
    requires forall f :: f in fields ==> f in e.changed && f !in p.written && Here(f, PlaceAfter(source), e.peerIndex)
    requires NoRepeat(fields)
    ensures Mirrors(WriteAll(p, e, fields), e, source)
    ensures WriteAll(p, e, fields).written == p.written + set f | f in fields
  {
    hide Mirrors, Sane, Here, PlaceAfter;
    if fields != [] {
      var n := |fields| - 1;
      WriteAllKeeps(p, e, source, fields[..n]);
      WriteKeeps(WriteAll(p, e, fields[..n]), e, source, fields[n]);
    }
  }

  lemma SameWords(raw: string, other: string, at: Place, peerIndex: int)
    requires Trim(raw) == Trim(other)
    ensures FieldOf(raw, at, peerIndex) == FieldOf(other, at, peerIndex) && ValueOf(raw) == ValueOf(other)
    ensures Enter(at, raw) == Enter(at, other)
  {
    hide FieldIn, Trim, IsHeader, SettingOf, IndexOf, Lower;
  }

  /** Ending the last line changes nothing. */
  lemma TerminateKeeps(p: Progress, e: Edit, source: seq<string>)
    requires Mirrors(p, e, source) && Sane(e) && p.doc != []
    ensures Mirrors(p.(doc := Terminated(p.doc, e.ending)), e, source)
  {
    hide FieldOf, ValueOf, Read, Kept, PlaceAfter, Trim, Enter;
    var n := |p.doc| - 1;
    var front, raw, other := p.doc[..n], p.doc[n], p.doc[n] + e.ending;
    var next := p.(doc := Terminated(p.doc, e.ending));
    if !Ends(raw) {
      TrimEnding(raw, e.ending);
      SameWords(raw, other, PlaceAfter(front), e.peerIndex);
      assert p.doc == front + [raw] && next.doc == front + [other];
      KeepOne(front, raw, e);
      KeepOne(front, other, e);
      forall f ensures Shows(next, e, source, f) {
        assert Shows(p, e, source, f);
        Append(front, raw, e.peerIndex, f);
        Append(front, other, e.peerIndex, f);
      }
      Append(front, raw, e.peerIndex, Carrier);
      Append(front, other, e.peerIndex, Carrier);
    }
  }

  lemma SectionAccepts(at: Place, peerIndex: int)
    ensures NoRepeat(SectionFields(at, peerIndex)) && NoRepeat(TRANSPORT_FIELDS) && NoRepeat(PEER_FIELDS)
    ensures forall f :: f in SectionFields(at, peerIndex) ==> Here(f, at, peerIndex)
  {
  }

  lemma StepKeeps(p: Progress, e: Edit, source: seq<string>, raw: string)
    requires Mirrors(p, e, source) && Sane(e)
    ensures Mirrors(Step(p, e, source, raw), e, source + [raw])
  {
    hide Mirrors, Sane, FieldOf, PlaceAfter, IsHeader, Trim, Enter, Terminated, WriteAll, Write, SectionFields, Here,
        NoRepeat;
    var at, all := PlaceAfter(source), source + [raw];
    var field := FieldOf(raw, at, e.peerIndex);
    Append(source, raw, e.peerIndex, Carrier);
    if field.Some? && field.value in e.changed {
      SkipKeeps(p, e, source, raw);
      SameSection(source, raw, e);
      if field.value !in p.written {
        WriteKeeps(p, e, all, field.value);
      }
    } else {
      CopyKeeps(p, e, source, raw);
      var copied := Progress(p.doc + [raw], p.written);
      var added := Pending(e, SectionFields(Enter(at, raw), e.peerIndex), e.present + p.written);
      if IsHeader(Trim(raw)) && added != [] {
        TerminateKeeps(copied, e, all);
        SectionAccepts(PlaceAfter(all), e.peerIndex);
        WriteAllKeeps(copied.(doc := Terminated(copied.doc, e.ending)), e, all, added);
      }
    }
  }

  /** After a line that sets a field, one is still where that field can be set. */
  lemma SameSection(source: seq<string>, raw: string, e: Edit)
    requires FieldOf(raw, PlaceAfter(source), e.peerIndex).Some?
    ensures Here(FieldOf(raw, PlaceAfter(source), e.peerIndex).value, PlaceAfter(source + [raw]), e.peerIndex)
  {
    hide FieldOf, PlaceAfter, IsHeader, Trim, Here;
    FieldPlace(raw, PlaceAfter(source), e.peerIndex);
    Append(source, raw, e.peerIndex, Carrier);
  }

  lemma BeginKeeps(e: Edit)
    requires Sane(e)
    ensures Mirrors(Begin(e), e, [])
    ensures Begin(e).written == set f | f in TRANSPORT_FIELDS && f in e.changed && f !in e.present
  {
    hide Sane, WriteAll;
    var empty := Progress([], {});
    forall f ensures Shows(empty, e, [], f) {
    }
    SectionAccepts(PlaceAfter([]), e.peerIndex);
    WriteAllKeeps(empty, e, [], Pending(e, TRANSPORT_FIELDS, e.present));
  }

  lemma {:induction false} StepsKeep(e: Edit, raws: seq<string>)
    requires Sane(e)
    ensures Mirrors(Steps(e, raws), e, raws)
  {
    hide Sane, Mirrors, Step, Begin;
    if raws == [] {
      BeginKeeps(e);
    } else {
      var n := |raws| - 1;
      StepsKeep(e, raws[..n]);
      StepKeeps(Steps(e, raws[..n]), e, raws[..n], raws[n]);
      assert raws[..n] + [raws[n]] == raws;
    }
  }

  // ---- Which fields get written ----

  lemma {:induction false} WriteAllWritten(p: Progress, e: Edit, fields: seq<Field>)
    ensures WriteAll(p, e, fields).written == p.written + set f | f in fields
  {
    if fields != [] {
      WriteAllWritten(p, e, fields[..|fields| - 1]);
    }
  }

  lemma InSection(f: Field, at: Place, peerIndex: int)
    ensures f in SectionFields(at, peerIndex) <==> f !in TRANSPORT_FIELDS && Here(f, at, peerIndex)
  {
  }

  lemma StepWrites(p: Progress, e: Edit, before: seq<string>, raw: string, f: Field)
    requires f in e.changed
    ensures var at := PlaceAfter(before);
            f in Step(p, e, before, raw).written <==>
            || f in p.written || FieldOf(raw, at, e.peerIndex) == Some(f)
            || (IsHeader(Trim(raw)) && f !in TRANSPORT_FIELDS && f !in e.present
               && Here(f, Enter(at, raw), e.peerIndex))
  {
    hide PlaceAfter, IsHeader, Trim, Enter, Terminated, WriteAll, FieldOf, NoRepeat, SectionFields, Here;
    var at := PlaceAfter(before);
    InSection(f, Enter(at, raw), e.peerIndex);
    FieldPlace(raw, at, e.peerIndex);
    var copied := Progress(p.doc + [raw], p.written);
    var added := Pending(e, SectionFields(Enter(at, raw), e.peerIndex), e.present + p.written);
    WriteAllWritten(copied.(doc := Terminated(copied.doc, e.ending)), e, added);
  }

  /** A field the text sets is written at its first line, any other in its first section. */
  predicate Due(e: Edit, raws: seq<string>, f: Field) {
    if f in e.present then Occurs(raws, e.peerIndex, f)
    else f in TRANSPORT_FIELDS || HasSection(raws, e.peerIndex, f)
  }

  lemma {:induction false} StepsWrite(e: Edit, raws: seq<string>, f: Field)
    requires f in e.changed && Sane(e) && (Occurs(raws, e.peerIndex, f) ==> f in e.present)
    ensures f in Steps(e, raws).written <==> Due(e, raws, f)
  {
    hide Sane, Step, Begin, IsHeader, Trim, Enter, Here, FieldOf;
    if raws == [] {
      BeginKeeps(e);
    } else {
      var n := |raws| - 1;
      StepsWrite(e, raws[..n], f);
      StepWrites(Steps(e, raws[..n]), e, raws[..n], raws[n], f);
    }
  }

  lemma {:induction false} InsideSection(raws: seq<string>, peerIndex: int, f: Field)
    requires f !in TRANSPORT_FIELDS && Here(f, PlaceAfter(raws), peerIndex)
    ensures HasSection(raws, peerIndex, f)
  {
    hide IsHeader, Trim;
    if raws != [] {
      var n := |raws| - 1;
      if !IsHeader(Trim(raws[n])) {
        InsideSection(raws[..n], peerIndex, f);
      }
    }
  }

  lemma {:induction false} OccursInside(raws: seq<string>, peerIndex: int, f: Field)
    requires f !in TRANSPORT_FIELDS && Occurs(raws, peerIndex, f)
    ensures HasSection(raws, peerIndex, f)
  {
    hide IsHeader, Trim, FieldOf, Here;
    var n := |raws| - 1;
    if Occurs(raws[..n], peerIndex, f) {
      OccursInside(raws[..n], peerIndex, f);
    } else {
      FieldPlace(raws[n], PlaceAfter(raws[..n]), peerIndex);
      InsideSection(raws[..n], peerIndex, f);
    }
  }

  lemma {:induction false} PeerSections(raws: seq<string>, peerIndex: int, f: Field)
    requires f in PEER_FIELDS
    ensures PlaceAfter(raws).peer == PeerCount(raws) - 1
    ensures HasSection(raws, peerIndex, f) <==> 0 <= peerIndex < PeerCount(raws)
  {
    hide IsHeader, Trim;
    if raws != [] {
      PeerSections(raws[..|raws| - 1], peerIndex, f);
    }
  }

  lemma {:induction false} Unset(raws: seq<string>, peerIndex: int, f: Field)
    requires !Occurs(raws, peerIndex, f)
    ensures Read(raws, peerIndex, f) == Default(f)
  {
    hide FieldOf, PlaceAfter, Default;
    if raws != [] {
      Unset(raws[..|raws| - 1], peerIndex, f);
    }
  }

  // ---- The new peer section ----

  lemma PeerHeaderOpens(e: Edit, at: Place)
    requires Sane(e)
    ensures IsHeader(Trim(PeerHeader(e))) && Enter(at, PeerHeader(e)) == Place("peer", at.peer + 1)
    ensures FieldOf(PeerHeader(e), at, e.peerIndex) == None
  {
    hide Trim, IndexOf;
    var line := "[Peer]";
    assert "" + line + e.ending == PeerHeader(e);
    TrimFinds("", line, e.ending);
    assert line[1..5] == "Peer";
    TrimTight("Peer");
    assert Lower("Peer") == "peer";
  }

  lemma BlankSaysNothing(e: Edit, at: Place)
    requires Sane(e)
    ensures FieldOf(e.ending, at, e.peerIndex) == None && Enter(at, e.ending) == at
  {
    TrimBlank(e.ending);
    assert SettingOf("") == "";
  }

  /** The source with the lines that open the new section. */
  function Opened(e: Edit, raws: seq<string>, doc: seq<string>): seq<string> {
    (if doc == [] then raws + [e.ending] else raws) + [PeerHeader(e)]
  }

  lemma OpenKeeps(p: Progress, e: Edit, raws: seq<string>)
    requires Mirrors(p, e, raws) && Sane(e)
    ensures var all := Opened(e, raws, p.doc);
            && Mirrors(p.(doc := Terminated(p.doc, e.ending) + [PeerHeader(e)]), e, all)
            && PlaceAfter(all) == Place("peer", PlaceAfter(raws).peer + 1)
            && forall f :: Read(all, e.peerIndex, f) == Read(raws, e.peerIndex, f)
  {
    hide Mirrors, Sane, FieldOf, PlaceAfter, Enter, Read, PeerHeader, ValueOf;
    var start := if p.doc == [] then raws + [e.ending] else raws;
    var q := p.(doc := Terminated(p.doc, e.ending));
    BlankSaysNothing(e, PlaceAfter(raws));
    if p.doc == [] {
      CopyKeeps(p, e, raws, e.ending);
      assert q.doc == p.doc + [e.ending];
    } else {
      TerminateKeeps(p, e, raws);
    }
    PeerHeaderOpens(e, PlaceAfter(start));
    CopyKeeps(q, e, start, PeerHeader(e));
    forall f ensures Read(start + [PeerHeader(e)], e.peerIndex, f) == Read(raws, e.peerIndex, f) {
      Append(raws, e.ending, e.peerIndex, f);
      Append(start, PeerHeader(e), e.peerIndex, f);
    }
    Append(raws, e.ending, e.peerIndex, Carrier);
    Append(start, PeerHeader(e), e.peerIndex, Carrier);
  }

  /** Under another peer's header, nothing written is read. */
  lemma {:induction false} StraysSayNothing(p: Progress, e: Edit, fields: seq<Field>, g: Field)
    requires Sane(e) && (forall f :: f in fields ==> f in PEER_FIELDS)
    requires PlaceAfter(p.doc).section == "peer" && PlaceAfter(p.doc).peer != e.peerIndex
    ensures var q := WriteAll(p, e, fields);
            PlaceAfter(q.doc) == PlaceAfter(p.doc) && Read(q.doc, e.peerIndex, g) == Read(p.doc, e.peerIndex, g)
  {
    hide FieldOf, PlaceAfter, Read, ValueOf, IsHeader, Trim, Tight;
    if fields != [] {
      var n := |fields| - 1;
      var f, q := fields[n], WriteAll(p, e, fields[..n]);
      StraysSayNothing(p, e, fields[..n], g);
      if e.form(f) == "" {
        assert q.doc + Setting(f, "", e.ending) == q.doc;
      } else {
        var raw := StrayLine(f, e.form(f), e.ending, PlaceAfter(p.doc), e.peerIndex);
        Append(q.doc, raw, e.peerIndex, g);
      }
    }
  }

  lemma StrayLine(f: Field, value: string, ending: string, at: Place, peerIndex: int) returns (raw: string)
    requires Tight(value) && (ending == "\n" || ending == "\r\n")
    requires f in PEER_FIELDS && at.section == "peer" && at.peer != peerIndex
    ensures Setting(f, value, ending) == [raw]
    ensures FieldOf(raw, at, peerIndex) == None && Enter(at, raw) == at
  {
    raw := Setting(f, value, ending)[0];
    SettingElsewhere(f, value, ending, at, peerIndex);
    SettingReads(f, value, ending, Place("peer", peerIndex), peerIndex);
  }

  // ---- The lens ----

  /** An edit that cannot come back: no text says a transport field is empty, a text
      without Interface header has no place for its fields, and the new peer section
      gets the next number, whatever number was asked for. */
  predicate Lost(raws: seq<string>, e: Edit, f: Field) {
    && f in e.changed
    && if f in TRANSPORT_FIELDS then e.form(f) == ""
       else if f in INTERFACE_FIELDS then !HasSection(raws, e.peerIndex, f)
       else !(0 <= e.peerIndex <= PeerCount(raws))
  }

  /** The edit is the difference between a form and what the text shows. */
  ghost predicate EditFor(e: Edit, raws: seq<string>) {
    && Sane(e)
    && (forall f :: f in e.changed <==> e.form(f) != Trim(Read(raws, e.peerIndex, f)))
    && (forall f :: f in e.present <==> Occurs(raws, e.peerIndex, f))
  }

  lemma DueAtEnd(e: Edit, raws: seq<string>, f: Field)
    requires EditFor(e, raws) && f in e.changed
    ensures Due(e, raws, f) <==>
              if f in TRANSPORT_FIELDS then true
              else if f in INTERFACE_FIELDS then HasSection(raws, e.peerIndex, f)
              else 0 <= e.peerIndex < PeerCount(raws)
  {
    hide Occurs, HasSection, PeerCount, Read, Sane, PlaceAfter;
    if f !in TRANSPORT_FIELDS && Occurs(raws, e.peerIndex, f) {
      OccursInside(raws, e.peerIndex, f);
    }
    if f in PEER_FIELDS {
      PeerSections(raws, e.peerIndex, f);
    }
  }

  lemma NewSection(e: Edit, raws: seq<string>)
    requires EditFor(e, raws)
    ensures var added := Pending(e, PEER_FIELDS, Steps(e, raws).written);
            forall f :: f in added <==> f in PEER_FIELDS && f in e.changed && !(0 <= e.peerIndex < PeerCount(raws))
  {
    hide Occurs, Steps, Due, PeerCount, Read, Sane, HasSection;
    forall f | f in PEER_FIELDS && f in e.changed
      ensures f in Steps(e, raws).written <==> 0 <= e.peerIndex < PeerCount(raws)
    {
      StepsWritten(e, raws, f);
    }
  }

  /** The new section is read exactly when its number is the one asked for. */
  lemma FinishKeeps(e: Edit, raws: seq<string>)
    requires EditFor(e, raws) && 0 <= e.peerIndex <= PeerCount(raws)
    ensures var p := Steps(e, raws);
            var all := if Pending(e, PEER_FIELDS, p.written) == [] then raws else Opened(e, raws, p.doc);
            && Mirrors(Finish(p, e), e, all)
            && (forall f :: Read(all, e.peerIndex, f) == Read(raws, e.peerIndex, f))
            && Finish(p, e).written == p.written + set f | f in Pending(e, PEER_FIELDS, p.written)
  {
    hide Occurs, Steps, PeerCount, Read, PlaceAfter, Mirrors, Opened, WriteAll, NoRepeat, Terminated, PeerHeader, Sane,
        Trim;
    var p := Steps(e, raws);
    StepsKeep(e, raws);
    NewSection(e, raws);
    var added := Pending(e, PEER_FIELDS, p.written);
    if added != [] {
      PeerSections(raws, e.peerIndex, added[0]);
      OpenKeeps(p, e, raws);
      var all := Opened(e, raws, p.doc);
      SectionAccepts(PlaceAfter(all), e.peerIndex);
      WriteAllKeeps(p.(doc := Terminated(p.doc, e.ending) + [PeerHeader(e)]), e, all, added);
    }
  }

  lemma FinishElsewhere(e: Edit, raws: seq<string>, f: Field)
    requires EditFor(e, raws) && !(0 <= e.peerIndex <= PeerCount(raws))
    ensures Read(Finish(Steps(e, raws), e).doc, e.peerIndex, f) == Read(Steps(e, raws).doc, e.peerIndex, f)
  {
    hide Occurs, Steps, PeerCount, Read, PlaceAfter, Opened, WriteAll, NoRepeat, Terminated, PeerHeader, Kept, Trim;
    var p := Steps(e, raws);
    StepsKeep(e, raws);
    var added := Pending(e, PEER_FIELDS, p.written);
    if added != [] {
      PeerSections(raws, e.peerIndex, added[0]);
      OpenKeeps(p, e, raws);
      var q, all := p.(doc := Terminated(p.doc, e.ending) + [PeerHeader(e)]), Opened(e, raws, p.doc);
      assert Shows(p, e, raws, f) && Shows(q, e, all, f);
      StraysSayNothing(q, e, added, f);
    }
  }

  lemma StepsWritten(e: Edit, raws: seq<string>, f: Field)
    requires EditFor(e, raws) && f in e.changed
    ensures f in Steps(e, raws).written <==>
              if f in TRANSPORT_FIELDS then true
              else if f in INTERFACE_FIELDS then HasSection(raws, e.peerIndex, f)
              else 0 <= e.peerIndex < PeerCount(raws)
  {
    hide Occurs, Steps, PeerCount, Read, HasSection, Trim, Due, Sane;
    StepsWrite(e, raws, f);
    DueAtEnd(e, raws, f);
  }

  lemma OutcomeNear(e: Edit, raws: seq<string>, f: Field)
    requires EditFor(e, raws) && 0 <= e.peerIndex <= PeerCount(raws)
    ensures Read(Finish(Steps(e, raws), e).doc, e.peerIndex, f) ==
            if f !in e.changed then Read(raws, e.peerIndex, f)
            else if e.form(f) == "" || Lost(raws, e, f) then Default(f)
            else e.form(f)
  {
    hide Occurs, Steps, PeerCount, Read, PlaceAfter, Opened, NoRepeat, Kept, HasSection, Finish, Sane, Trim, Default;
    FinishKeeps(e, raws);
    var p := Steps(e, raws);
    var all := if Pending(e, PEER_FIELDS, p.written) == [] then raws else Opened(e, raws, p.doc);
    assert Shows(Finish(p, e), e, all, f);
    if f in e.changed {
      StepsWritten(e, raws, f);
    }
  }

  lemma OutcomeFar(e: Edit, raws: seq<string>, f: Field)
    requires EditFor(e, raws) && !(0 <= e.peerIndex <= PeerCount(raws))
    ensures Read(Finish(Steps(e, raws), e).doc, e.peerIndex, f) ==
            if f !in e.changed then Read(raws, e.peerIndex, f)
            else if e.form(f) == "" || Lost(raws, e, f) then Default(f)
            else e.form(f)
  {
    hide Occurs, Steps, PeerCount, Read, PlaceAfter, Opened, NoRepeat, Kept, HasSection, Finish, Sane, Trim, Default;
    FinishElsewhere(e, raws, f);
    StepsKeep(e, raws);
    assert Shows(Steps(e, raws), e, raws, f);
    if f in e.changed {
      StepsWritten(e, raws, f);
    }
  }

  /** FORM/SOURCE LENS: saving and reading again gives a field back, trimmed, exactly
      when its edit is not one of the lost ones. */
  lemma Lens(e: Edit, raws: seq<string>, f: Field)
    requires EditFor(e, raws)
    ensures Trim(Read(Finish(Steps(e, raws), e).doc, e.peerIndex, f)) == e.form(f) <==> !Lost(raws, e, f)
  {
    hide Occurs, Steps, PeerCount, Read, PlaceAfter, HasSection, Finish, Trim, Default;
    if 0 <= e.peerIndex <= PeerCount(raws) {
      OutcomeNear(e, raws, f);
    } else {
      OutcomeFar(e, raws, f);
    }
    Defaults(f);
    if Lost(raws, e, f) {
      Absent(e, raws, f);
    } else if e.form(f) != "" {
      TrimTight(e.form(f));
    }
  }

  lemma Defaults(f: Field)
    ensures Trim(Default(f)) == Default(f) && (Default(f) == "" <==> f !in TRANSPORT_FIELDS)
  {
  }

  /** A lost interface or peer field had nothing in the source, so its edit is not empty. */
  lemma Absent(e: Edit, raws: seq<string>, f: Field)
    requires EditFor(e, raws) && Lost(raws, e, f)
    ensures e.form(f) != Default(f)
  {
    hide Occurs, PeerCount, Read, PlaceAfter, HasSection, Trim;
    Defaults(f);
    if f !in TRANSPORT_FIELDS {
      if Occurs(raws, e.peerIndex, f) {
        OccursInside(raws, e.peerIndex, f);
      }
      if f in PEER_FIELDS {
        PeerSections(raws, e.peerIndex, f);
      }
      Unset(raws, e.peerIndex, f);
    }
  }

  /** Every line that sets no edited field survives, in order; a new peer section may follow. */
  lemma LinesSurvive(e: Edit, raws: seq<string>)
    requires EditFor(e, raws) && 0 <= e.peerIndex <= PeerCount(raws)
    ensures var p := Steps(e, raws);
            var opens := e.peerIndex == PeerCount(raws) && exists f :: f in PEER_FIELDS && f in e.changed;
            Kept(Finish(p, e).doc, e) ==
            Kept(raws, e) + if !opens then [] else if p.doc == [] then [e.ending, PeerHeader(e)] else [PeerHeader(e)]
  {
    hide Occurs, Steps, PeerCount, Read, PlaceAfter, HasSection, Finish, Trim, Kept, FieldOf, Enter;
    FinishKeeps(e, raws);
    NewSection(e, raws);
    var p := Steps(e, raws);
    var added := Pending(e, PEER_FIELDS, p.written);
    if added != [] {
      assert added[0] in added;
      var start := if p.doc == [] then raws + [e.ending] else raws;
      KeepOne(raws, e.ending, e);
      BlankSaysNothing(e, PlaceAfter(raws));
      KeepOne(start, PeerHeader(e), e);
      PeerHeaderOpens(e, PlaceAfter(start));
    }
  }

  // ---- Lines and text ----

  ghost predicate NoBreaks(e: Edit) {
    forall f :: f in e.changed ==> '\n' !in e.form(f)
  }

  predicate AllEnd(doc: seq<string>) {
    forall i :: 0 <= i < |doc| ==> IsLine(doc[i]) && Ends(doc[i])
  }

  lemma {:induction false} WriteAllSplits(p: Progress, e: Edit, fields: seq<Field>)
    requires AllEnd(p.doc) && Sane(e) && NoBreaks(e) && forall f :: f in fields ==> f in e.changed
    ensures AllEnd(WriteAll(p, e, fields).doc)
  {
    hide IsLine, Ends, Setting, Tight;
    if fields != [] {
      var n := |fields| - 1;
      WriteAllSplits(p, e, fields[..n]);
      SettingSplits(e, fields[n]);
    }
  }

  lemma SettingSplits(e: Edit, f: Field)
    requires Sane(e) && NoBreaks(e) && f in e.changed
    ensures AllEnd(Setting(f, e.form(f), e.ending))
  {
    hide IsLine, Ends;
    if e.form(f) != "" {
      SettingIsLine(f, e.form(f), e.ending);
    }
  }

  lemma TerminatedSplits(doc: seq<string>, e: Edit)
    requires Splits(doc) && Sane(e)
    ensures AllEnd(Terminated(doc, e.ending))
  {
  }

  lemma StepSplits(p: Progress, e: Edit, before: seq<string>, raw: string)
    requires AllEnd(p.doc) && IsLine(raw) && Sane(e) && NoBreaks(e)
    ensures Splits(Step(p, e, before, raw).doc) && (Ends(raw) ==> AllEnd(Step(p, e, before, raw).doc))
  {
    hide Sane, NoBreaks, IsLine, Ends, FieldOf, IsHeader, Trim, PlaceAfter, Enter, Terminated, WriteAll, NoRepeat,
        SectionFields, Setting;
    var at := PlaceAfter(before);
    var field := FieldOf(raw, at, e.peerIndex);
    if field.Some? && field.value in e.changed {
      SettingSplits(e, field.value);
    } else {
      var copied := Progress(p.doc + [raw], p.written);
      var added := Pending(e, SectionFields(Enter(at, raw), e.peerIndex), e.present + p.written);
      TerminatedSplits(copied.doc, e);
      WriteAllSplits(copied.(doc := Terminated(copied.doc, e.ending)), e, added);
    }
  }

  lemma {:induction false} StepsSplit(e: Edit, raws: seq<string>)
    requires Splits(raws) && Sane(e) && NoBreaks(e)
    ensures Splits(Steps(e, raws).doc) && (AllEnd(raws) ==> AllEnd(Steps(e, raws).doc))
  {
    hide Sane, NoBreaks, IsLine, Ends, Step, WriteAll, NoRepeat;
    if raws == [] {
      WriteAllSplits(Progress([], {}), e, Pending(e, TRANSPORT_FIELDS, e.present));
    } else {
      var n := |raws| - 1;
      StepsSplit(e, raws[..n]);
      StepSplits(Steps(e, raws[..n]), e, raws[..n], raws[n]);
    }
  }

  lemma FinishSplits(e: Edit, raws: seq<string>)
    requires Splits(raws) && Sane(e) && NoBreaks(e)
    ensures Splits(Finish(Steps(e, raws), e).doc)
  {
    hide NoBreaks, Steps, WriteAll, NoRepeat, Terminated, Tight;
    var p := Steps(e, raws);
    StepsSplit(e, raws);
    var added := Pending(e, PEER_FIELDS, p.written);
    if added != [] {
      TerminatedSplits(p.doc, e);
      assert IsLine(PeerHeader(e)) && Ends(PeerHeader(e));
      WriteAllSplits(p.(doc := Terminated(p.doc, e.ending) + [PeerHeader(e)]), e, added);
    }
  }

  lemma EditOfIsEditFor(source: string, peerIndex: int, draft: Draft)
    ensures EditFor(EditOf(source, peerIndex, draft), Raws(source))
  {
    hide Trim, Tight, Read, Occurs, Raws;
    var e := EditOf(source, peerIndex, draft);
    forall f ensures e.form(f) == "" || Tight(e.form(f)) {
      var before, after := TrimSplits(draft(f));
    }
  }

  /** The saved text, line by line. */
  lemma PatchedLines(source: string, peerIndex: int, draft: Draft)
    requires NoBreaks(EditOf(source, peerIndex, draft))
    ensures var e := EditOf(source, peerIndex, draft);
            Raws(Patched(source, peerIndex, draft)) ==
            if e.changed == {} then Raws(source) else Finish(Steps(e, Raws(source)), e).doc
  {
    hide NoBreaks, Steps, Finish, Splits, Raws, Trim, EditOf, Join;
    var e, raws := EditOf(source, peerIndex, draft), Raws(source);
    EditOfIsEditFor(source, peerIndex, draft);
    RawsSplit(source);
    FinishSplits(e, raws);
    SplitIsUnique(Finish(Steps(e, raws), e).doc);
  }

  /** Saving a form and reading the text again gives each field back unless its edit is a lost one. */
  lemma SaveThenRead(source: string, peerIndex: int, draft: Draft, f: Field)
    requires NoBreaks(EditOf(source, peerIndex, draft))
    ensures var saved := Patched(source, peerIndex, draft);
            Trim(Read(Raws(saved), peerIndex, f)) == Trim(draft(f)) <==>
            !Lost(Raws(source), EditOf(source, peerIndex, draft), f)
  {
    hide NoBreaks, Steps, Finish, Raws, Trim, Join, Read, Occurs, HasSection, PeerCount;
    EditOfIsEditFor(source, peerIndex, draft);
    PatchedLines(source, peerIndex, draft);
    Lens(EditOf(source, peerIndex, draft), Raws(source), f);
  }

  lemma ValueUnbroken(raw: string)
    requires IsLine(raw)
    ensures '\n' !in ValueOf(raw)
  {
    hide Trim, IsLine;
    TrimLine(raw);
    var line := Trim(raw);
    if DIRECTIVE <= line {
      TrimPart(line[|DIRECTIVE|..]);
    }
    var setting := SettingOf(line);
    assert '\n' !in setting;
    TrimPart(setting[IndexOf(setting, '=') + 1..]);
  }

  /** The form shows no line feed. */
  lemma {:induction false} ReadUnbroken(raws: seq<string>, peerIndex: int, f: Field)
    requires Splits(raws)
    ensures '\n' !in Read(raws, peerIndex, f)
  {
    hide ValueOf, FieldOf, PlaceAfter, IsLine, Ends;
    if raws != [] {
      var n := |raws| - 1;
      ReadUnbroken(raws[..n], peerIndex, f);
      ValueUnbroken(raws[n]);
    }
  }

  /** A form with a line feed inside some value never comes back whole. */
  lemma BrokenIsLost(source: string, peerIndex: int, draft: Draft, saved: string, f: Field)
    requires f in EditOf(source, peerIndex, draft).changed && '\n' in EditOf(source, peerIndex, draft).form(f)
    ensures Trim(Read(Raws(saved), peerIndex, f)) != Trim(draft(f))
  {
    hide Raws, Trim, Read, Occurs, Splits;
    RawsSplit(saved);
    ReadUnbroken(Raws(saved), peerIndex, f);
    TrimPart(Read(Raws(saved), peerIndex, f));
  }

  /** Reading the text gives the whole form back, trimmed. */
  ghost predicate ComesBack(text: string, peerIndex: int, draft: Draft) {
    forall f :: Trim(Read(Raws(text), peerIndex, f)) == Trim(draft(f))
  }

  ghost predicate NoneLost(raws: seq<string>, e: Edit) {
    forall f :: !Lost(raws, e, f)
  }

  /** FORM/SOURCE LENS on whole forms: everything comes back if and only if no value
      holds a line feed and no edit is a lost one. */
  lemma SaveThenReadAll(source: string, peerIndex: int, draft: Draft)
    ensures var e := EditOf(source, peerIndex, draft);
            ComesBack(Patched(source, peerIndex, draft), peerIndex, draft) <==> NoBreaks(e) && NoneLost(Raws(source), e)
  {
    hide Raws, Trim, Read, Occurs, Patched, Lost, EditOf;
    var saved, e := Patched(source, peerIndex, draft), EditOf(source, peerIndex, draft);
    if !NoBreaks(e) {
      var f :| f in e.changed && '\n' in e.form(f);
      BrokenIsLost(source, peerIndex, draft, saved, f);
    } else if ComesBack(saved, peerIndex, draft) {
      forall f ensures !Lost(Raws(source), e, f) {
        SaveThenRead(source, peerIndex, draft, f);
      }
    } else {
      var f :| Trim(Read(Raws(saved), peerIndex, f)) != Trim(draft(f));
      SaveThenRead(source, peerIndex, draft, f);
    }
  }

  /** One edit of each lost kind, on an empty text: an interface field without Interface
      header, a cleared transport field, a peer field of a peer beyond the next, and a
      value with a line feed. */
  lemma LostEdits()
    ensures var mtu := With(Default, Mtu, "1420"); Trim(Read(Raws(Patched("", 0, mtu)), 0, Mtu)) != Trim("1420")
    ensures var fec := With(Default, Fec, ""); Trim(Read(Raws(Patched("", 0, fec)), 0, Fec)) != Trim("")
    ensures var key := With(Default, PeerPublicKey, "k");
            Trim(Read(Raws(Patched("", 1, key)), 1, PeerPublicKey)) != Trim("k")
    ensures var obfs := With(Default, Obfs, "a\nb"); Trim(Read(Raws(Patched("", 0, obfs)), 0, Obfs)) != Trim("a\nb")
  {
    hide Patched, Raws, Read, Trim, With;
    LostBreak();
    LostEdit(0, Mtu, "1420");
    LostEdit(0, Fec, "");
    LostEdit(1, PeerPublicKey, "k");
  }

  lemma LostEdit(peerIndex: int, f: Field, value: string)
    requires (value == "" || Tight(value)) && '\n' !in value && value != Default(f)
    requires if f in TRANSPORT_FIELDS then value == "" else f in INTERFACE_FIELDS || peerIndex != 0
    ensures Trim(Read(Raws(Patched("", peerIndex, With(Default, f, value))), peerIndex, f)) != Trim(value)
  {
    hide Patched, Trim, Tight, Default, IsHeader, FieldOf;
    var draft := With(Default, f, value);
    var e := EditOf("", peerIndex, draft);
    forall g ensures Trim(Default(g)) == Default(g) {
      Defaults(g);
    }
    if value == "" {
      TrimBlank("");
    } else {
      TrimTight(value);
    }
    assert e.changed == {f};
    SaveThenRead("", peerIndex, draft, f);
  }

  lemma LostBreak()
    ensures var obfs := With(Default, Obfs, "a\nb"); Trim(Read(Raws(Patched("", 0, obfs)), 0, Obfs)) != Trim("a\nb")
  {
    hide Patched, Raws, Read, Trim, Occurs, IsLine;
    var obfs, text := With(Default, Obfs, "a\nb"), Patched("", 0, With(Default, Obfs, "a\nb"));
    TrimTight("a\nb");
    assert "a\nb"[1] == '\n';
    RawsSplit(text);
    ReadUnbroken(Raws(text), 0, Obfs);
    TrimPart(Read(Raws(text), 0, Obfs));
  }

  /** A second save of the same form finds nothing left to change if and only if the
      first one gave everything back; then it changes nothing. */
  lemma SaveTwice(source: string, peerIndex: int, draft: Draft)
    ensures var saved, e := Patched(source, peerIndex, draft), EditOf(source, peerIndex, draft);
            && (EditOf(saved, peerIndex, draft).changed == {} <==> NoBreaks(e) && NoneLost(Raws(source), e))
            && (NoBreaks(e) && NoneLost(Raws(source), e) ==> Patched(saved, peerIndex, draft) == saved)
  {
    hide NoBreaks, NoneLost, Steps, Finish, Raws, Trim, Join, Read, Occurs;
    SaveThenReadAll(source, peerIndex, draft);
    var saved := Patched(source, peerIndex, draft);
    var again := EditOf(saved, peerIndex, draft);
    forall f ensures f in again.changed <==> Trim(Read(Raws(saved), peerIndex, f)) != Trim(draft(f)) {
    }
    assert again.changed == {} <==> forall f :: f !in again.changed;
  }

  lemma {:induction false} KeptPrefix(doc: seq<string>, more: seq<string>, e: Edit)
    ensures Kept(doc, e) <= Kept(doc + more, e)
  {
    hide Kept, FieldOf;
    if more == [] {
      assert doc + more == doc;
    } else {
      var n := |more| - 1;
      KeptPrefix(doc, more[..n], e);
      assert doc + more == (doc + more[..n]) + [more[n]];
      KeepOne(doc + more[..n], more[n], e);
    }
  }

  lemma {:induction false} WriteAllExtends(p: Progress, e: Edit, fields: seq<Field>)
    ensures p.doc <= WriteAll(p, e, fields).doc
  {
    if fields != [] {
      WriteAllExtends(p, e, fields[..|fields| - 1]);
    }
  }

  /** Whatever peer the form is about, no line is lost. */
  lemma LinesStay(e: Edit, raws: seq<string>)
    requires EditFor(e, raws)
    ensures Kept(raws, e) <= Kept(Finish(Steps(e, raws), e).doc, e)
  {
    hide Occurs, Steps, Read, PlaceAfter, Trim, Kept, Terminated, WriteAll, PeerHeader, FieldOf, NoRepeat, Sane;
    var p := Steps(e, raws);
    StepsKeep(e, raws);
    var added := Pending(e, PEER_FIELDS, p.written);
    if added != [] {
      var ended := Terminated(p.doc, e.ending);
      WriteAllExtends(p.(doc := ended + [PeerHeader(e)]), e, added);
      var all := Finish(p, e).doc;
      assert all == ended + all[|ended|..];
      KeptPrefix(ended, all[|ended|..], e);
      if p.doc != [] {
        TerminateKeeps(p, e, raws);
      } else {
        NothingKept(e);
      }
    }
  }

  lemma NothingKept(e: Edit)
    ensures Kept([], e) == []
  {
  }

  /** Every line of the source that sets no edited field is in the saved text, in order;
      only the line feed of the last one and a new peer section can be added. */
  lemma SaveKeepsLines(source: string, peerIndex: int, draft: Draft)
    requires NoBreaks(EditOf(source, peerIndex, draft))
    ensures var e, raws := EditOf(source, peerIndex, draft), Raws(source);
            Kept(raws, e) <= Kept(Raws(Patched(source, peerIndex, draft)), e)
    ensures var e, raws := EditOf(source, peerIndex, draft), Raws(source);
            var kept := Kept(Raws(Patched(source, peerIndex, draft)), e);
            || !(0 <= peerIndex <= PeerCount(raws))
            || kept == Kept(raws, e)
            || (peerIndex == PeerCount(raws) && kept == Kept(raws, e) + [PeerHeader(e)])
            || (peerIndex == PeerCount(raws) && kept == Kept(raws, e) + [e.ending, PeerHeader(e)])
  {
    hide NoBreaks, Steps, Finish, Raws, Trim, Join, Read, Occurs, HasSection, PeerCount, Kept, PeerHeader;
    var e, raws := EditOf(source, peerIndex, draft), Raws(source);
    EditOfIsEditFor(source, peerIndex, draft);
    PatchedLines(source, peerIndex, draft);
    LinesStay(e, raws);
    if 0 <= peerIndex <= PeerCount(raws) {
      LinesSurvive(e, raws);
    }
    assert Kept(raws, e) + [] == Kept(raws, e);
  }

  // ---- Saving ----

  predicate LastFull(doc: seq<string>) {
    doc == [] || doc[|doc| - 1] != ""
  }

  lemma JoinEnds(doc: seq<string>)
    requires LastFull(doc)
    ensures Ends(Join(doc)) <==> doc != [] && Ends(doc[|doc| - 1])
  {
    if doc == [] {
      JoinNone();
    } else {
      hide Join;
      var n := |doc| - 1;
      assert doc == doc[..n] + [doc[n]];
      JoinOne(doc[..n], doc[n]);
    }
  }

  lemma TerminatedJoin(doc: seq<string>, ending: string)
    requires LastFull(doc) && ending != ""
    ensures Join(Terminated(doc, ending)) == if Ends(Join(doc)) then Join(doc) else Join(doc) + ending
    ensures LastFull(Terminated(doc, ending))
  {
    hide Join, Ends;
    JoinEnds(doc);
    JoinNone();
    if doc == [] {
      JoinOne([], ending);
      assert [] + [ending] == [ending] && "" + ending == ending;
    } else {
      var n := |doc| - 1;
      assert doc == doc[..n] + [doc[n]];
      JoinOne(doc[..n], doc[n]);
      JoinOne(doc[..n], doc[n] + ending);
      Associate(Join(doc[..n]), doc[n], ending);
    }
  }

  function SettingText(e: Edit, f: Field): string {
    var lines := Setting(f, e.form(f), e.ending);
    if lines == [] then "" else lines[0]
  }

  lemma WriteJoin(p: Progress, e: Edit, f: Field)
    requires LastFull(p.doc)
    ensures Join(Write(p, e, f).doc) == Join(p.doc) + SettingText(e, f) && LastFull(Write(p, e, f).doc)
  {
    hide Join;
    if e.form(f) == "" {
      assert Write(p, e, f).doc == p.doc && Join(p.doc) + "" == Join(p.doc);
    } else {
      JoinOne(p.doc, Setting(f, e.form(f), e.ending)[0]);
    }
  }

  /** Writes the settings of some fields one after the other. */
  method WriteFields(e: Edit, fields: seq<Field>, text: string, done: set<Field>, ghost p: Progress)
    returns (output: string, written: set<Field>)
    requires text == Join(p.doc) && done == p.written && LastFull(p.doc)
    ensures var q := WriteAll(p, e, fields);
            output == Join(q.doc) && written == q.written && LastFull(q.doc)
  {
    hide Join, LastFull, Write, SettingText;
    output, written := text, done;
    for i := 0 to |fields|
      invariant output == Join(WriteAll(p, e, fields[..i]).doc) && written == WriteAll(p, e, fields[..i]).written
      invariant LastFull(WriteAll(p, e, fields[..i]).doc)
    {
      WriteNext(p, e, fields, i);
      WriteJoin(WriteAll(p, e, fields[..i]), e, fields[i]);
      output, written := output + SettingText(e, fields[i]), written + {fields[i]};
    }
    assert fields[..|fields|] == fields;
  }

  lemma WriteNext(p: Progress, e: Edit, fields: seq<Field>, i: nat)
    requires i < |fields|
    ensures WriteAll(p, e, fields[..i + 1]) == Write(WriteAll(p, e, fields[..i]), e, fields[i])
    ensures WriteAll(p, e, fields[..i + 1]).written == WriteAll(p, e, fields[..i]).written + {fields[i]}
  {
    assert fields[..i + 1][..i] == fields[..i];
  }

  /** One line of the source. */
  method PatchLine(e: Edit, raws: seq<string>, i: nat, line: Line, text: string, done: set<Field>, ghost p: Progress)
    returns (output: string, written: set<Field>)
    requires i < |raws| && raws[i] != "" && line == LineAt(raws, e.peerIndex, i)
    requires text == Join(p.doc) && done == p.written && LastFull(p.doc) && e.ending != ""
    ensures var q := Step(p, e, raws[..i], raws[i]);
            output == Join(q.doc) && written == q.written && LastFull(q.doc)
  {
    hide Join, WriteAll, Pending, Terminated, Write, SettingText, IsHeader, Trim, PlaceAfter, FieldOf, ValueOf, Enter,
        Ends;
    Upto(raws, i);
    Append(raws[..i], raws[i], e.peerIndex, Carrier);
    output, written := text, done;
    if line.field.Some? && line.field.value in e.changed {
      if line.field.value !in written {
        output, written := WriteFields(e, [line.field.value], output, written, p);
        WriteOne(p, e, line.field.value);
      }
      return;
    }
    output := output + line.raw;
    ghost var copied := Progress(p.doc + [line.raw], p.written);
    JoinOne(p.doc, line.raw);
    if line.header {
      var added := Pending(e, SectionFields(line.at, e.peerIndex), e.present + written);
      if added != [] {
        if !Ends(output) {
          output := output + e.ending;
        }
        TerminatedJoin(copied.doc, e.ending);
        output, written := WriteFields(e, added, output, written, copied.(doc := Terminated(copied.doc, e.ending)));
      }
    }
  }

  lemma WriteOne(p: Progress, e: Edit, f: Field)
    ensures WriteAll(p, e, [f]) == Write(p, e, f)
  {
  }

  method PatchConf(source: string, peerIndex: int, draft: Draft) returns (output: string)
    ensures output == Patched(source, peerIndex, draft)
  {
    hide Join, WriteAll, Pending, Terminated, IsLine, Ends, IsHeader, Trim, PlaceAfter, FieldOf, ValueOf, Enter, Raws,
        Step, Read, Occurs, HasCrLf;
    var original, _ := ParseConf(source, peerIndex);
    var changed := set f: Field | Trim(draft(f)) != Trim(original(f));
    assert changed == EditOf(source, peerIndex, draft).changed;
    if changed == {} {
      return source;
    }
    var raws := Raws(source);
    RawsSplit(source);
    var lines := DocumentLines(source, peerIndex);
    var present := FieldsPresent(raws, peerIndex, lines);
    var e := Edit(Trimmed(draft), changed, present, if HasCrLf(source) then "\r\n" else "\n", peerIndex);
    assert e == EditOf(source, peerIndex, draft);
    JoinNone();
    var written;
    output, written := WriteFields(e, Pending(e, TRANSPORT_FIELDS, present), "", {}, Progress([], {}));
    ghost var p := Begin(e);
    for i := 0 to |lines|
      invariant p == Steps(e, raws[..i]) && output == Join(p.doc) && written == p.written && LastFull(p.doc)
    {
      StepNext(e, raws, i);
      LinesNotEmpty(raws, i);
      output, written := PatchLine(e, raws, i, lines[i], output, written, p);
      p := Step(p, e, raws[..i], raws[i]);
    }
    assert raws[..|lines|] == raws;
    var added := Pending(e, PEER_FIELDS, written);
    if added != [] {
      TerminatedJoin(p.doc, e.ending);
      if !Ends(output) {
        output := output + e.ending;
      }
      JoinOne(Terminated(p.doc, e.ending), PeerHeader(e));
      output := output + PeerHeader(e);
      output, written := WriteFields(e, added, output, written,
          p.(doc := Terminated(p.doc, e.ending) + [PeerHeader(e)]));
    }
  }

  lemma LinesNotEmpty(raws: seq<string>, i: nat)
    requires Splits(raws) && i < |raws|
    ensures raws[i] != ""
  {
  }

  lemma StepNext(e: Edit, raws: seq<string>, i: nat)
    requires i < |raws|
    ensures Steps(e, raws[..i + 1]) == Step(Steps(e, raws[..i]), e, raws[..i], raws[i])
  {
    hide Step, Begin;
    assert raws[..i + 1][..i] == raws[..i];
  }

  method FieldsPresent(raws: seq<string>, peerIndex: int, lines: seq<Line>) returns (present: set<Field>)
    requires |lines| == |raws| && forall i :: 0 <= i < |lines| ==> lines[i] == LineAt(raws, peerIndex, i)
    ensures forall f :: f in present <==> Occurs(raws, peerIndex, f)
  {
    hide IsHeader, Trim, PlaceAfter, FieldOf, ValueOf, Enter;
    present := {};
    for i := 0 to |lines|
      invariant forall f :: f in present <==> Occurs(raws[..i], peerIndex, f)
    {
      OccursNext(raws, peerIndex, i);
      if lines[i].field.Some? {
        present := present + {lines[i].field.value};
      }
    }
    assert raws[..|lines|] == raws;
  }

  lemma OccursNext(raws: seq<string>, peerIndex: int, i: nat)
    requires i < |raws|
    ensures forall f :: Occurs(raws[..i + 1], peerIndex, f) <==>
              Occurs(raws[..i], peerIndex, f) || FieldOf(raws[i], PlaceAfter(raws[..i]), peerIndex) == Some(f)
  {
    assert raws[..i + 1][..i] == raws[..i];
  }
}

/** Model of the MIDI input callback of src/midiReader.cpp: the filter that
    reads a raw MIDI message, rejects what the synth does not handle, splits
    the status byte into message kind and channel, names the kind through a
    `switch`, and would append control-change messages to a static queue.

    Bytes follow the MIDI 1.0 Detailed Specification, channel voice messages:
    the status byte's high nibble is the message kind (0x8n note-off,
    0x9n note-on, 0xBn control change), its low nibble the channel minus one,
    and 0xF0-0xFF are system messages. The three kind constants come from
    STK's SKINI message table and have those MIDI values. */
module MidiInput {

  const NoteOffKind: bv8 := 0x80
  const NoteOnKind: bv8 := 0x90
  const ControlChangeKind: bv8 := 0xB0

  /** `status & 0xF0`: the message kind. */
  function Kind(status: bv8): (k: bv8)
    ensures k & 0x0F == 0 && k <= status
  {
    status & 0xF0
  }

  /** `(status & 0x0F) + 1`: the MIDI channel, numbered from 1. */
  function Channel(status: bv8): (c: int)
    ensures 1 <= c <= 16
  {
    (status & 0x0F) as int + 1
  }

  /** Kind and channel together give back the status byte. */
  lemma StatusSplit(status: bv8)
    ensures Kind(status) | (Channel(status) - 1) as bv8 == status
    ensures Kind(status) as int + Channel(status) - 1 == status as int
  {
  }

  /** Why the callback returned early. */
  datatype Discard = TooShort | SystemMessage | NotANote

  /** A decoded note message: kind, channel 1..16 and the two data bytes
      (note number and velocity). */
  datatype Message = Message(kind: bv8, channel: int, data1: int, data2: int)

  /** What the decoding steps do with one message: return early, throw
      std::out_of_range from `bytes->at(2)`, or go on with a message. */
  datatype Outcome = Discarded(reason: Discard) | OutOfRange | Accepted(msg: Message)

  /** A note-on or note-off status byte, described by its range. */
  predicate IsNoteStatus(status: bv8) {
    0x80 <= status < 0xA0
  }

  /** The decoding steps of the callback, in source order: size check,
      system-message check, bitmask split, kind filter, then the two data
      bytes read with a range-checked `at`. */
  function Decode(bytes: seq<bv8>): (o: Outcome)
    ensures o.Accepted? <==> |bytes| >= 3 && IsNoteStatus(bytes[0])
    ensures o.OutOfRange? <==> |bytes| == 2 && IsNoteStatus(bytes[0])
    ensures |bytes| < 2 ==> o == Discarded(TooShort)
    ensures |bytes| >= 2 && bytes[0] >= 0xF0 ==> o == Discarded(SystemMessage)
    ensures o.Accepted? ==>
              (o.msg.kind == NoteOnKind || o.msg.kind == NoteOffKind) &&
              1 <= o.msg.channel <= 16 &&
              o.msg.kind | (o.msg.channel - 1) as bv8 == bytes[0] &&
              o.msg.data1 == bytes[1] as int && o.msg.data2 == bytes[2] as int
  {
    if |bytes| < 2 then Discarded(TooShort)
    else if bytes[0] > 239 then Discarded(SystemMessage)
    else
      var kind := Kind(bytes[0]);
      var channel := Channel(bytes[0]);
      if kind != NoteOnKind && kind != NoteOffKind then Discarded(NotANote)
      else if |bytes| < 3 then OutOfRange
      else Accepted(Message(kind, channel, bytes[1] as int, bytes[2] as int))
  }

  /** Short messages and system messages never get through. */
  lemma ShortAndSystemDiscarded(bytes: seq<bv8>)
    requires |bytes| < 2 || bytes[0] >= 0xF0
    ensures Decode(bytes).Discarded?
  {
  }

  /** Only the two note kinds get through: a control change, a running-status
      data byte (below 0x80) or any other kind is discarded. */
  lemma OnlyNotesPass(bytes: seq<bv8>)
    requires |bytes| >= 2 && bytes[0] < 0xF0 && Kind(bytes[0]) != NoteOnKind && Kind(bytes[0]) != NoteOffKind
    ensures Decode(bytes) == Discarded(NotANote)
  {
  }

  // ---------------------------------------------------------------------
  // The `switch (type)` that names the kind

  /** A case label: a kind constant, or `default`. */
  datatype Label = Value(kind: bv8) | Default

  /** One case of a switch: its label, the name it assigns, and whether a
      `break` follows the assignment. */
  datatype Case = Case(tag: Label, name: string, breaks: bool)

  /** The switch of the callback as written: no `break` after the note-on and
      note-off cases. */
  const TypeSwitch: seq<Case> := [
    Case(Value(NoteOnKind), "Note on\t", false),
    Case(Value(NoteOffKind), "Note off\t", false),
    Case(Value(ControlChangeKind), "ControlChange\t", true),
    Case(Default, "Unknown\t", false)
  ]

  /** Where control enters the switch: the first case labelled with the
      kind, else the first `default`, else past the end. */
  function EntryPoint(cases: seq<Case>, kind: bv8): (i: nat)
    ensures i <= |cases|
    ensures i < |cases| ==> cases[i].tag == Value(kind) || cases[i].tag == Default
    ensures i < |cases| && cases[i].tag == Default ==>
              forall k :: 0 <= k < |cases| ==> cases[k].tag != Value(kind)
    ensures (exists k :: 0 <= k < |cases| && cases[k].tag == Value(kind)) ==>
              i < |cases| && cases[i].tag == Value(kind) &&
              forall k :: 0 <= k < i ==> cases[k].tag != Value(kind)
    ensures (forall k :: 0 <= k < |cases| ==> cases[k].tag != Value(kind)) &&
            (exists k :: 0 <= k < |cases| && cases[k].tag == Default) ==>
              i < |cases| && cases[i].tag == Default &&
              forall k :: 0 <= k < i ==> cases[k].tag != Default
    ensures (forall k :: 0 <= k < |cases| ==> cases[k].tag != Value(kind) && cases[k].tag != Default) ==>
              i == |cases|
  {
    if exists k :: 0 <= k < |cases| && cases[k].tag == Value(kind) then FirstWith(cases, Value(kind), 0)
    else FirstWith(cases, Default, 0)
  }

  /** The first index at or after `from` labelled `wanted`, or |cases|. */
  function FirstWith(cases: seq<Case>, wanted: Label, from: nat): (i: nat)
    requires from <= |cases|
    ensures from <= i <= |cases|
    ensures i < |cases| ==> cases[i].tag == wanted
    ensures forall k :: from <= k < i ==> cases[k].tag != wanted
    decreases |cases| - from
  {
    if from == |cases| then from
    else if cases[from].tag == wanted then from
    else FirstWith(cases, wanted, from + 1)
  }

  /** Runs the switch body from case i, falling through until a `break` or
      the end; `name` is the value typeName holds on entry. */
  function Execute(cases: seq<Case>, i: nat, name: string): (r: string)
    requires i <= |cases|
    ensures i == |cases| ==> r == name
    ensures i < |cases| ==>
              exists k :: i <= k < |cases| && r == cases[k].name &&
                (cases[k].breaks || k == |cases| - 1) &&
                forall m :: i <= m < k ==> !cases[m].breaks
    decreases |cases| - i
  {
    if i == |cases| then name
    else if cases[i].breaks then cases[i].name
    else Execute(cases, i + 1, cases[i].name)
  }

  /** The value of typeName after the switch (it starts as the empty string). */
  function TypeName(kind: bv8): (r: string)
    ensures exists k :: 0 <= k < |TypeSwitch| && r == TypeSwitch[k].name
  {
    assert TypeSwitch[3].tag == Default;
    Execute(TypeSwitch, EntryPoint(TypeSwitch, kind), "")
  }

  /** The missing breaks: note-on and note-off fall through to the
      control-change case, so all three kinds end up named "ControlChange\t";
      every other kind is "Unknown\t". */
  lemma FallThrough(kind: bv8)
    ensures kind == NoteOnKind || kind == NoteOffKind || kind == ControlChangeKind ==>
              TypeName(kind) == "ControlChange\t"
    ensures kind != NoteOnKind && kind != NoteOffKind && kind != ControlChangeKind ==>
              TypeName(kind) == "Unknown\t"
  {
    var cases := TypeSwitch;
    assert cases[0].tag == Value(NoteOnKind) && cases[1].tag == Value(NoteOffKind);
    assert cases[2].tag == Value(ControlChangeKind) && cases[3].tag == Default;
    assert Execute(cases, 2, cases[1].name) == "ControlChange\t";
    if kind == NoteOnKind {
      assert cases[0].tag == Value(kind);
      assert EntryPoint(cases, kind) == 0;
      assert Execute(cases, 0, "") == Execute(cases, 1, cases[0].name) == Execute(cases, 2, cases[1].name);
    } else if kind == NoteOffKind {
      assert cases[1].tag == Value(kind);
      assert FirstWith(cases, Value(kind), 0) == FirstWith(cases, Value(kind), 1) == 1;
      assert Execute(cases, 1, "") == Execute(cases, 2, cases[1].name);
    } else if kind == ControlChangeKind {
      assert cases[2].tag == Value(kind);
      assert FirstWith(cases, Value(kind), 0) == FirstWith(cases, Value(kind), 1) == FirstWith(cases, Value(kind), 2) == 2;
    } else {
      assert forall k :: 0 <= k < |cases| ==> cases[k].tag != Value(kind);
      assert FirstWith(cases, Default, 3) == 3;
    }
  }

  // ---------------------------------------------------------------------
  // The tail of the callback and the message queue

  /** One queue element: channel, then the two data bytes. */
  datatype Entry = Entry(channel: int, data1: int, data2: int)

  /** What the tail of the callback appends to the queue for these bytes: the
      message when its kind is control change and its name is
      "ControlChange\t", nothing otherwise. */
  function Enqueued(bytes: seq<bv8>): (q: seq<Entry>)
    ensures |q| <= 1
    ensures forall e :: e in q ==>
              |bytes| >= 3 && Decode(bytes) == Accepted(Message(ControlChangeKind, e.channel, e.data1, e.data2))
  {
    match Decode(bytes)
    case Accepted(m) =>
      if m.kind == ControlChangeKind && TypeName(m.kind) == "ControlChange\t"
      then [Entry(m.channel, m.data1, m.data2)] else []
    case _ => []
  }

  /** The queue never grows: the filter lets only note kinds through, and the
      append needs the control-change kind. */
  lemma NeverEnqueues(bytes: seq<bv8>)
    ensures Enqueued(bytes) == []
  {
    var o := Decode(bytes);
    if o.Accepted? {
      assert o.msg.kind != ControlChangeKind;
    }
  }

  /** The static message queue of the callback. */
  class MessageBuffer {
    var items: seq<Entry>

    constructor ()
      ensures items == []
    {
      items := [];
    }

    /** The callback on one message. Returns the decoding outcome (OutOfRange
        stands for the exception escaping the callback) and whether the
        "unknown" line is printed. */
    method Receive(bytes: seq<bv8>) returns (o: Outcome, printsUnknown: bool)
      modifies this
      ensures o == Decode(bytes)
      ensures items == old(items) + Enqueued(bytes)
      ensures printsUnknown <==> o.Accepted? && o.msg.kind != ControlChangeKind
    {
      o := Decode(bytes);
      printsUnknown := false;
      if o.Accepted? {
        var m := o.msg;
        var typeName := TypeName(m.kind);
        var pushed := if m.kind == ControlChangeKind && typeName == "ControlChange\t"
                      then [Entry(m.channel, m.data1, m.data2)] else [];
        items := items + pushed;
        printsUnknown := m.kind != ControlChangeKind;
      }
    }
  }
}

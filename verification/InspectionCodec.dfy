/** Bottle inspections and the ten holding registers that carry one. An identity is the pair
    behind the source's "session:sequence" text. */
module InspectionCodec {
  import opened Common

  const WORD: nat := 0x1_0000
  const DWORD: nat := 0x1_0000_0000
  const TWORD: nat := 0x1_0000_0000_0000
  const QWORD: nat := 0x1_0000_0000_0000_0000

  /** First millisecond past the last year a timestamp can name. */
  const MILLIS_END: nat := 253_402_300_800_000

  const MILLI: Time := 1_000

  datatype InspectionId = InspectionId(session: nat, sequence: nat)

  datatype Inspection = Inspection(id: InspectionId, bottle: nat, passed: bool, at: Time)

  type Registers = seq<nat>

  const BLANK: Registers := [0, 0, 0, 0, 0, 0, 0, 0, 0, 0]

  predicate ValidId(id: InspectionId) {
    0 < id.session < QWORD && 0 < id.sequence < WORD
  }

  /** What the wire can carry: the identity, bottle and time ranges of a real inspection. */
  predicate Carried(e: Inspection) {
    ValidId(e.id) && 0 < e.bottle < WORD && 0 <= e.at < MILLIS_END * MILLI
  }

  function AtMillis(e: Inspection): Inspection {
    e.(at := e.at / MILLI * MILLI)
  }

  function SessionWords(session: nat): Registers {
    [session / TWORD % WORD, session / DWORD % WORD, session / WORD % WORD, session % WORD]
  }

  function SessionOf(words: Registers): nat
    requires |words| >= 4
  {
    words[0] * TWORD + words[1] * DWORD + words[2] * WORD + words[3]
  }

  /** The three low words; the source's shifts floor, so this also covers times before 1970. */
  function MillisWords(millis: int): Registers {
    [millis / DWORD % WORD, millis / WORD % WORD, millis % WORD]
  }

  function Encode(event: Option<Inspection>): Registers {
    match event
    case None => BLANK
    case Some(e) =>
      SessionWords(e.id.session)
      + [e.id.sequence, e.bottle, if e.passed then 1 else 2]
      + MillisWords(e.at / MILLI)
  }

  predicate Snapshot(r: Registers) {
    |r| == 10 && forall i | 0 <= i < 10 :: r[i] < WORD
  }

  function Decode(r: Registers): Result<Option<Inspection>> {
    if !Snapshot(r) then Failure("invalid inspection snapshot")
    else if r[6] == 0 then Success(None)
    else
      var session := SessionOf(r);
      var millis := r[7] * DWORD + r[8] * WORD + r[9];
      if r[6] > 2 || session == 0 || r[4] == 0 then Failure("invalid inspection identity/status")
      else if r[5] == 0 || millis >= MILLIS_END then Failure("invalid inspection fields")
      else Success(Some(Inspection(InspectionId(session, r[4]), r[5], r[6] == 1, millis * MILLI)))
  }

  /** Dividing by a word repeatedly is dividing by its powers. */
  lemma PeelWords(s: nat)
    ensures s / WORD / WORD == s / DWORD && s / DWORD / WORD == s / TWORD
  {
  }

  lemma SessionWordsInvert(session: nat)
    requires session < QWORD
    ensures SessionOf(SessionWords(session)) == session
    ensures forall w | w in SessionWords(session) :: w < WORD
  {
    PeelWords(session);
    var q1, q2, q3 := session / WORD, session / DWORD, session / TWORD;
    assert session == q1 * WORD + session % WORD;
    assert q1 == q2 * WORD + q1 % WORD;
    assert q2 == q3 * WORD + q2 % WORD;
    assert SessionWords(session) == [q3, q2 % WORD, q1 % WORD, session % WORD];
  }

  /** Taking the low word off again gives back what stood above it. */
  lemma TakeWord(high: nat, low: nat)
    requires low < WORD
    ensures (high * WORD + low) / WORD == high && (high * WORD + low) % WORD == low
  {
  }

  lemma WordsOfSession(w: Registers)
    requires |w| >= 4 && forall i | 0 <= i < 4 :: w[i] < WORD
    ensures SessionWords(SessionOf(w)) == w[..4] && SessionOf(w) < QWORD
  {
    var s := SessionOf(w);
    var two := w[0] * WORD + w[1];
    var three := two * WORD + w[2];
    assert s == three * WORD + w[3];
    TakeWord(three, w[3]);
    TakeWord(two, w[2]);
    TakeWord(w[0], w[1]);
    PeelWords(s);
    assert SessionWords(s) == [w[0], w[1], w[2], w[3]];
  }

  /** Encoding keeps everything but the part of the time below a millisecond. */
  lemma DecodeEncode(e: Inspection)
    requires Carried(e)
    ensures Decode(Encode(Some(e))) == Success(Some(AtMillis(e)))
    ensures Encode(Some(AtMillis(e))) == Encode(Some(e))
  {
    var r := Encode(Some(e));
    var millis := e.at / MILLI;
    SessionWordsInvert(e.id.session);
    assert r[..4] == SessionWords(e.id.session);
    assert SessionOf(r) == SessionOf(SessionWords(e.id.session));
    assert millis == millis / DWORD * DWORD + millis / WORD % WORD * WORD + millis % WORD;
    assert millis / DWORD < WORD;
    assert r[7..] == MillisWords(millis);
  }

  lemma WordsOfMillis(a: nat, b: nat, c: nat)
    requires a < WORD && b < WORD && c < WORD
    ensures MillisWords(a * DWORD + b * WORD + c) == [a, b, c]
  {
    var millis := a * DWORD + b * WORD + c;
    assert millis % WORD == c;
    assert millis / WORD == a * WORD + b;
    assert millis / DWORD == a;
  }

  /** Whatever decodes to an inspection is that inspection's only encoding. */
  lemma EncodeDecode(r: Registers)
    requires Decode(r).Success? && Decode(r).value.Some?
    ensures Carried(Decode(r).value.value) && AtMillis(Decode(r).value.value) == Decode(r).value.value
    ensures Encode(Decode(r).value) == r
  {
    WordsOfSession(r);
    WordsOfMillis(r[7], r[8], r[9]);
    var e := Decode(r).value.value;
    assert e.at / MILLI == r[7] * DWORD + r[8] * WORD + r[9];
    assert Encode(Some(e)) == r[..4] + [r[4], r[5], r[6]] + [r[7], r[8], r[9]];
  }

  /** The registers as the consumers read them: the session in four words and the milliseconds in three,
      high words first, the sequence, the bottle, and one for passed or two for failed. */
  lemma RegisterLayout(e: Inspection)
    requires Carried(e)
    ensures var r := Encode(Some(e));
            && |r| == 10 && (forall i | 0 <= i < 10 :: r[i] <= 65535)
            && r[0] * 0x1_0000_0000_0000 + r[1] * 0x1_0000_0000 + r[2] * 0x1_0000 + r[3] == e.id.session
            && r[4] == e.id.sequence && r[5] == e.bottle && r[6] == (if e.passed then 1 else 2)
            && r[7] * 0x1_0000_0000 + r[8] * 0x1_0000 + r[9] == e.at / 1000
  {
    var r := Encode(Some(e));
    var millis := e.at / MILLI;
    SessionWordsInvert(e.id.session);
    assert r[..4] == SessionWords(e.id.session);
    assert SessionOf(r) == SessionOf(SessionWords(e.id.session));
    assert millis == millis / DWORD * DWORD + millis / WORD % WORD * WORD + millis % WORD;
    assert millis / DWORD < WORD;
    assert r[7..] == MillisWords(millis);
  }

  /** A reader takes ten words: nothing while the status is zero, an inspection when every field is in
      its range, and an error otherwise. */
  lemma DecodingIsExact(r: Registers)
    ensures Decode(r) == Success(None) <==> |r| == 10 && (forall i | 0 <= i < 10 :: r[i] <= 65535) && r[6] == 0
    ensures Decode(r).Success? && Decode(r).value.Some? <==>
            && |r| == 10 && (forall i | 0 <= i < 10 :: r[i] <= 65535) && (r[6] == 1 || r[6] == 2)
            && (r[0] != 0 || r[1] != 0 || r[2] != 0 || r[3] != 0) && r[4] != 0 && r[5] != 0
            && r[7] * 0x1_0000_0000 + r[8] * 0x1_0000 + r[9] < 253_402_300_800_000
  {
  }
}

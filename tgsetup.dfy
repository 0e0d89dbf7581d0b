/** Telegram template setup (`discord/views/tgsetup.py`): the user walks
    through the server's templates one at a time, pasting for each the
    `%TEMPLATE-<digits>%` code NationStates gives back; each accepted code
    is stored, as a user-template record, for that template and user. */
module TgSetup {
  import opened Wrappers
  import opened Strings
  import opened BucketConfig

  const CodePrefix: string := "%TEMPLATE-"
  const InvalidCodeText: string := "Template code is invalid! Try again."

  /** Length of the run of decimal digits at the start of `s`. */
  function DigitRun(s: string): (k: nat)
    ensures k <= |s| && AllDigits(s[..k])
    ensures k < |s| ==> !IsDigit(s[k])
  {
    if |s| == 0 || !IsDigit(s[0]) then 0
    else
      var k := DigitRun(s[1..]);
      assert s[..k + 1] == [s[0]] + s[1..][..k];
      k + 1
  }

  /** `re.match(r"%TEMPLATE\-([0-9]+)%", code)`: the digits of a code at
      the start of the text, whatever follows it. A shorter run of digits
      is followed by a digit, never by `%`, so the greedy run is the only
      candidate. */
  function MatchCode(code: string): (r: Option<string>)
    ensures r.Some? ==> |r.value| > 0 && AllDigits(r.value)
  {
    if |code| >= |CodePrefix| && code[..|CodePrefix|] == CodePrefix then
      var t := code[|CodePrefix|..];
      var k := DigitRun(t);
      if k > 0 && k < |t| && t[k] == '%' then Some(t[..k]) else None
    else None
  }

  /** A match is a non-empty run of digits between the prefix and `%`,
      at the start of the text. */
  lemma MatchCodeSound(code: string)
    requires MatchCode(code).Some?
    ensures var d := MatchCode(code).value;
      |d| > 0 && AllDigits(d) && |code| > |CodePrefix| + |d| &&
      code == CodePrefix + d + "%" + code[|CodePrefix| + |d| + 1..]
  {
    var d := MatchCode(code).value;
    var n := |CodePrefix| + |d|;
    assert code == code[..|CodePrefix|] + code[|CodePrefix|..n] + code[n..n + 1] + code[n + 1..];
  }

  lemma {:induction false} DigitRunStops(d: string, rest: string)
    requires AllDigits(d)
    ensures DigitRun(d + "%" + rest) == |d|
  {
    if |d| > 0 {
      assert (d + "%" + rest)[1..] == d[1..] + "%" + rest;
      DigitRunStops(d[1..], rest);
    } else {
      assert (d + "%" + rest)[0] == '%';
    }
  }

  /** Any non-empty run of digits between the prefix and `%` is matched,
      and anything after the closing `%` is ignored. */
  lemma MatchCodeComplete(d: string, rest: string)
    requires |d| > 0 && AllDigits(d)
    ensures MatchCode(CodePrefix + d + "%" + rest) == Some(d)
  {
    var code := CodePrefix + d + "%" + rest;
    assert code[..|CodePrefix|] == CodePrefix;
    assert code[|CodePrefix|..] == d + "%" + rest;
    DigitRunStops(d, rest);
    assert (d + "%" + rest)[..|d|] == d;
  }

  /** The text stored as `tgid`: `str(int(digits))`. */
  function StoredTgId(digits: string): (r: string)
    requires AllDigits(digits)
    ensures |r| > 0 && AllDigits(r) && (r[0] == '0' ==> r == "0")
  {
    NatToString(DigitsValue(digits))
  }

  lemma {:induction false} LeadingZero(d: string)
    requires AllDigits(d)
    ensures DigitsValue("0" + d) == DigitsValue(d)
    decreases |d|
  {
    if |d| > 0 {
      var init := d[..|d| - 1];
      assert ("0" + d)[..|d|] == "0" + init;
      LeadingZero(init);
    } else {
      assert "0" + d == "0";
      assert ("0")[..0] == "";
    }
  }

  /** The stored id has the same value as the typed digits, leading zeros
      do not change it, and storing is idempotent. */
  lemma StoredTgIdValue(d: string)
    requires AllDigits(d)
    ensures DigitsValue(StoredTgId(d)) == DigitsValue(d)
    ensures StoredTgId("0" + d) == StoredTgId(d)
    ensures StoredTgId(StoredTgId(d)) == StoredTgId(d)
  {
    NatToStringValue(DigitsValue(d));
    LeadingZero(d);
  }

  /** A user-template record: the tgid a user obtained for a template. */
  datatype UserTemplate = UserTemplate(id: string, user: int, tgid: string)

  /** The position of the first record for (`id`, `user`), if any: the
      first result of `UserTemplateModel.find(query).all()`. */
  function FirstRecord(records: seq<UserTemplate>, id: string, user: int): (r: Option<nat>)
    ensures r.None? <==> forall j :: 0 <= j < |records| ==> !(records[j].id == id && records[j].user == user)
    ensures r.Some? ==> (r.value < |records| && records[r.value].id == id && records[r.value].user == user &&
      forall j :: 0 <= j < r.value ==> !(records[j].id == id && records[j].user == user))
  {
    if |records| == 0 then None
    else if records[0].id == id && records[0].user == user then Some(0)
    else match FirstRecord(records[1..], id, user)
      case None => None
      case Some(k) => Some(k + 1)
  }

  /** `updateTemplate`'s write: a new record when none exists for
      (`id`, `user`), otherwise the first existing record's tgid is
      overwritten. */
  function Upserted(records: seq<UserTemplate>, id: string, user: int, tgid: string): seq<UserTemplate> {
    match FirstRecord(records, id, user)
    case None => records + [UserTemplate(id, user, tgid)]
    case Some(k) => records[k := records[k].(tgid := tgid)]
  }

  /** At most one record per (template, user). */
  predicate AtMostOne(records: seq<UserTemplate>) {
    forall i, j :: 0 <= i < j < |records| ==> !(records[i].id == records[j].id && records[i].user == records[j].user)
  }

  /** After the write, the first record for (`id`, `user`) holds `tgid`; a
      record is added only when there was none, every other record is
      kept, and no second record for a pair is ever created. */
  lemma UpsertedSpec(records: seq<UserTemplate>, id: string, user: int, tgid: string)
    ensures var r := Upserted(records, id, user, tgid);
      FirstRecord(r, id, user).Some? && r[FirstRecord(r, id, user).value].tgid == tgid &&
      |r| == |records| + (if FirstRecord(records, id, user).None? then 1 else 0) &&
      (forall j :: 0 <= j < |records| && !(records[j].id == id && records[j].user == user) ==> r[j] == records[j])
    ensures AtMostOne(records) ==> AtMostOne(Upserted(records, id, user, tgid))
  {
    var r := Upserted(records, id, user, tgid);
    match FirstRecord(records, id, user)
    case None =>
      assert r[|records|] == UserTemplate(id, user, tgid);
    case Some(k) =>
      assert r[k].id == id && r[k].user == user;
  }

  /** The user-template records. */
  class UserTemplateStore {
    var records: seq<UserTemplate>

    constructor(records: seq<UserTemplate>)
      ensures this.records == records
    {
      this.records := records;
    }

    method Upsert(id: string, user: int, tgid: string)
      modifies this
      ensures records == Upserted(old(records), id, user, tgid)
    {
      var k := FirstRecord(records, id, user);
      if k.None? {
        records := records + [UserTemplate(id, user, tgid)];
      } else {
        records := records[k.value := records[k.value].(tgid := tgid)];
      }
    }
  }

  /** What the setup message shows: the no-templates notice, the step for
      one template, or the finished notice. */
  datatype Screen = NoTemplates | Step(index: nat) | Finished

  /** The reply to a submitted code: the invalid-code message, the next
      screen, or the `IndexError` of a code submitted after the last
      step. */
  datatype Reply = InvalidCode | Shown(screen: Screen) | IndexError

  class TemplateSetupView {
    const templates: seq<TemplateModel>
    const user: int
    var index: nat

    constructor(templates: seq<TemplateModel>, user: int)
      ensures this.templates == templates && this.user == user && index == 0
    {
      this.templates := templates;
      this.user := user;
      index := 0;
    }

    /** `send`: with no templates left, the no-templates notice instead of
        a first step. */
    method Send() returns (screen: Screen)
      ensures screen == if index >= |templates| then NoTemplates else Step(index)
    {
      if index >= |templates| {
        screen := NoTemplates;
      } else {
        screen := Step(index);
      }
    }

    /** `updateTemplate`: stores the code for the current template and
        moves to the next one, finishing after the last. */
    method UpdateTemplate(store: UserTemplateStore, tgid: nat) returns (reply: Reply)
      modifies this`index, store
      ensures old(index) >= |templates| ==>
        reply == IndexError && index == old(index) && store.records == old(store.records)
      ensures old(index) < |templates| ==>
        index == old(index) + 1 &&
        store.records == Upserted(old(store.records), templates[old(index)].id, user, NatToString(tgid)) &&
        reply == Shown(if index >= |templates| then Finished else Step(index))
    {
      if index >= |templates| {
        return IndexError;
      }
      var template := templates[index];
      store.Upsert(template.id, user, NatToString(tgid));
      index := index + 1;
      if index >= |templates| {
        reply := Shown(Finished);
      } else {
        reply := Shown(Step(index));
      }
    }

    /** `TemplateSetupForm.on_submit`: a valid code is stored as
        `str(int(digits))`; anything else is refused and nothing changes. */
    method OnSubmit(store: UserTemplateStore, code: string) returns (reply: Reply)
      modifies this`index, store
      ensures MatchCode(code).None? ==> reply == InvalidCode && index == old(index) && store.records == old(store.records)
      ensures MatchCode(code).Some? && old(index) < |templates| ==>
        index == old(index) + 1 &&
        store.records == Upserted(old(store.records), templates[old(index)].id, user, StoredTgId(MatchCode(code).value)) &&
        reply == Shown(if index >= |templates| then Finished else Step(index))
      ensures MatchCode(code).Some? && old(index) >= |templates| ==>
        reply == IndexError && index == old(index) && store.records == old(store.records)
    {
      var digits := MatchCode(code);
      if digits.None? {
        return InvalidCode;
      }
      var tgid := DigitsValue(digits.value);
      reply := UpdateTemplate(store, tgid);
    }
  }
}

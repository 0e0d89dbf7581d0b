/** Bucket configuration (`discord/views/config/bucket.py`): the forms that
    create a recruitment bucket or edit its filter and size, the selectors
    for its mode and priority, the priority labels, and the deletion of a
    bucket together with its templates. The persisted `BucketModel` and
    `TemplateModel` records are values kept in a store keyed by their
    primary keys. */
module BucketConfig {
  import opened Wrappers
  import opened Strings
  import opened Filters
  import opened RecruitFilters
  import opened Classes

  datatype BucketModel = BucketModel(id: string, filter: string, size: int, priority: real, mode: int, templates: seq<string>)
  datatype TemplateModel = TemplateModel(id: string, bucket: string, mode: int, content: string)

  /** The largest bucket size the forms accept. */
  const MaxBucketSize: int := 2000
  const SizeError: string := "Bucket Size must be a valid number between 0 and 2000"
  const DuplicateName: string := "A bucket with the specified name already exists!"

  /** What a form submission leads to: the record is saved, the user is
      sent an error message and nothing is saved, or `BucketModel.get`
      raises because the bucket no longer exists. */
  datatype Outcome = Saved | Rejected(message: string) | NotFound

  /** The message of the `FilterError` that `RecruitFilter().parse` raises
      on `filter`, if it raises. */
  function FilterError(filter: string): Option<string> {
    Parsed(MatchStatement, Types, Words(filter)).1
  }

  /** The reply to a filter that does not parse. */
  function FilterRejection(e: string): string {
    "Error while parsing filter: " + e
  }

  /** `int(text)` checked to lie in [0, 2000]; a `ValueError` and an out of
      range number both give the same message. */
  function SizeCheck(text: string): (r: Result<int, string>)
    ensures r.Success? <==> ParseInt(text).Some? && 0 <= ParseInt(text).value <= MaxBucketSize
    ensures r.Success? ==> r.value == ParseInt(text).value
    ensures r.Failure? ==> r.error == SizeError
  {
    match ParseInt(text)
    case None => Failure(SizeError)
    case Some(size) => if size < 0 || size > MaxBucketSize then Failure(SizeError) else Success(size)
  }

  /** A string of digits with no underscores is one group of digits. */
  lemma {:induction false} DigitGroupsPlain(s: string)
    requires |s| > 0 && AllDigits(s)
    ensures DigitGroups(s) == Some(s)
  {
    if |s| > 1 {
      DigitGroupsPlain(s[1..]);
      assert [s[0]] + s[1..] == s;
    }
  }

  /** `int(str(n)) == n` through the full parser. */
  lemma ParseIntNat(n: nat)
    ensures ParseInt(NatToString(n)) == Some(n)
  {
    var s := NatToString(n);
    assert !IsSpace(s[0]) && !IsSpace(s[|s| - 1]);
    assert Strip(s) == s;
    DigitGroupsPlain(s);
    NatToStringValue(n);
  }

  /** Every size from 0 to 2000, typed as Python prints it, is accepted as
      that size; a larger number or a negative one is rejected. */
  lemma SizeRange(n: nat)
    ensures n <= MaxBucketSize ==> SizeCheck(NatToString(n)) == Success(n)
    ensures n > MaxBucketSize ==> SizeCheck(NatToString(n)) == Failure(SizeError)
    ensures n > 0 ==> SizeCheck(IntToString(-(n as int))) == Failure(SizeError)
  {
    ParseIntNat(n);
    if n > 0 {
      var s := IntToString(-(n as int));
      var d := NatToString(n);
      assert s == "-" + d;
      assert !IsSpace(s[0]) && !IsSpace(s[|s| - 1]);
      assert Strip(s) == s;
      assert s[1..] == d;
      DigitGroupsPlain(d);
      NatToStringValue(n);
    }
  }

  /** The label of a priority: the four priorities the selectors offer
      have names, any other value is shown as a custom number. */
  datatype PriorityLabel = Named(name: string) | Custom(priority: real)

  function PriorityDisplay(priority: real): (r: PriorityLabel)
    ensures r.Named? <==> priority == 0.0 || priority == 1.0 || priority == 2.0 || priority == 4.0
    ensures r.Custom? ==> r.priority == priority
  {
    if priority == 0.0 then Named("Normal Priority")
    else if priority == 1.0 then Named("Medium Priority")
    else if priority == 2.0 then Named("High Priority")
    else if priority == 4.0 then Named("Maximum Priority")
    else Custom(priority)
  }

  /** The priority selectors' options, as (label, value). */
  const PriorityOptions: seq<(string, real)> :=
    [("Normal Priority", 0.0), ("Medium Priority", 1.0), ("High Priority", 2.0), ("Maximum Priority", 4.0)]

  /** Every priority a selector can set is shown with the label of the
      option that set it, and distinct options have distinct labels. */
  lemma PriorityOptionsLabelled()
    ensures forall k :: 0 <= k < |PriorityOptions| ==>
      PriorityDisplay(PriorityOptions[k].1) == Named(PriorityOptions[k].0)
    ensures forall j, k :: 0 <= j < k < |PriorityOptions| ==>
      PriorityDisplay(PriorityOptions[j].1) != PriorityDisplay(PriorityOptions[k].1)
  {
  }

  /** `MODE_DISPLAY_NAME[mode]`, which raises `KeyError` for any other
      mode. */
  function ModeDisplay(mode: int): (r: Option<string>)
    ensures r.Some? <==> mode == ModeApi || mode == ModeManual || mode == ModeBoth
  {
    if mode == ModeApi then Some("API Only")
    else if mode == ModeManual then Some("Manual Only")
    else if mode == ModeBoth then Some("API & Manual")
    else None
  }

  /** The stored buckets have distinct names (the uniqueness check of
      bucket creation), filters that parse (the edit view parses the
      stored filter to explain it) and sizes the forms accept. */
  predicate WellFormed(buckets: map<string, BucketModel>) {
    (forall p, q :: p in buckets && q in buckets && p != q ==> buckets[p].id != buckets[q].id) &&
    (forall p :: p in buckets ==> FilterError(buckets[p].filter).None? && 0 <= buckets[p].size <= MaxBucketSize)
  }

  /** Whether some stored bucket is named `name`:
      `BucketModel.find(BucketModel.id == name).count() > 0`. */
  predicate NameTaken(buckets: map<string, BucketModel>, name: string) {
    exists p :: p in buckets && buckets[p].id == name
  }

  /** The templates left when the bucket named `name` is deleted. */
  function WithoutBucket(templates: map<string, TemplateModel>, name: string): (r: map<string, TemplateModel>)
    ensures forall t :: t in r <==> t in templates && templates[t].bucket != name
    ensures forall t :: t in r ==> r[t] == templates[t]
  {
    map t | t in templates && templates[t].bucket != name :: templates[t]
  }

  /** `RecruitFilter().parse(filter)` as the forms run it: the error
      message it raises, if any. */
  method CheckFilter(filter: string) returns (error: Option<string>)
    ensures error == FilterError(filter)
  {
    var f := NewRecruitFilter();
    error := f.Parse(filter);
  }

  /** The bucket and template records. */
  class BucketStore {
    var buckets: map<string, BucketModel>
    var templates: map<string, TemplateModel>

    constructor(buckets: map<string, BucketModel>, templates: map<string, TemplateModel>)
      ensures this.buckets == buckets && this.templates == templates
    {
      this.buckets := buckets;
      this.templates := templates;
    }

    /** `EditFilterForm.on_submit`: a filter that parses replaces the
        bucket's filter; otherwise the error is reported and nothing
        changes. */
    method EditFilter(pk: string, filter: string) returns (outcome: Outcome)
      modifies this`buckets
      ensures FilterError(filter).Some? ==>
        outcome == Rejected(FilterRejection(FilterError(filter).value)) && buckets == old(buckets)
      ensures FilterError(filter).None? && pk !in old(buckets) ==> outcome == NotFound && buckets == old(buckets)
      ensures FilterError(filter).None? && pk in old(buckets) ==>
        outcome == Saved && buckets == old(buckets)[pk := old(buckets)[pk].(filter := filter)]
      ensures WellFormed(old(buckets)) ==> WellFormed(buckets)
    {
      var error := CheckFilter(filter);
      if error.Some? {
        return Rejected(FilterRejection(error.value));
      }
      if pk !in buckets {
        return NotFound;
      }
      buckets := buckets[pk := buckets[pk].(filter := filter)];
      outcome := Saved;
    }

    /** `EditSizeForm.on_submit`: a size in [0, 2000] replaces the bucket's
        size; anything else is reported and nothing changes. */
    method EditSize(pk: string, text: string) returns (outcome: Outcome)
      modifies this`buckets
      ensures SizeCheck(text).Failure? ==> outcome == Rejected(SizeError) && buckets == old(buckets)
      ensures SizeCheck(text).Success? && pk !in old(buckets) ==> outcome == NotFound && buckets == old(buckets)
      ensures SizeCheck(text).Success? && pk in old(buckets) ==>
        outcome == Saved && buckets == old(buckets)[pk := old(buckets)[pk].(size := SizeCheck(text).value)]
      ensures WellFormed(old(buckets)) ==> WellFormed(buckets)
    {
      var size := ParseInt(text);
      if size.None? || size.value < 0 || size.value > MaxBucketSize {
        return Rejected(SizeError);
      }
      if pk !in buckets {
        return NotFound;
      }
      buckets := buckets[pk := buckets[pk].(size := size.value)];
      outcome := Saved;
    }

    /** `CreateBucketForm.on_submit`: the filter is checked first, then the
        size, then that the name is free; a bucket that passes all three is
        saved under the new key `pk` with no templates. The store generates
        a key no record has. */
    method CreateBucket(pk: string, name: string, filter: string, sizeText: string, mode: int, priority: real)
      returns (outcome: Outcome)
      requires pk !in buckets
      modifies this`buckets
      ensures FilterError(filter).Some? ==>
        outcome == Rejected(FilterRejection(FilterError(filter).value)) && buckets == old(buckets)
      ensures FilterError(filter).None? && SizeCheck(sizeText).Failure? ==>
        outcome == Rejected(SizeError) && buckets == old(buckets)
      ensures FilterError(filter).None? && SizeCheck(sizeText).Success? && NameTaken(old(buckets), name) ==>
        outcome == Rejected(DuplicateName) && buckets == old(buckets)
      ensures FilterError(filter).None? && SizeCheck(sizeText).Success? && !NameTaken(old(buckets), name) ==>
        outcome == Saved &&
        buckets == old(buckets)[pk := BucketModel(name, filter, SizeCheck(sizeText).value, priority, mode, [])]
      ensures WellFormed(old(buckets)) ==> WellFormed(buckets)
    {
      var error := CheckFilter(filter);
      if error.Some? {
        return Rejected(FilterRejection(error.value));
      }
      var size := ParseInt(sizeText);
      if size.None? || size.value < 0 || size.value > MaxBucketSize {
        return Rejected(SizeError);
      }
      if NameTaken(buckets, name) {
        return Rejected(DuplicateName);
      }
      buckets := buckets[pk := BucketModel(name, filter, size.value, priority, mode, [])];
      outcome := Saved;
    }

    /** `EditBucketView.selectMode`: the first selected value, if any,
        becomes the bucket's mode. */
    method SelectMode(pk: string, values: seq<int>) returns (outcome: Outcome)
      modifies this`buckets
      ensures values == [] ==> outcome == Saved && buckets == old(buckets)
      ensures values != [] && pk !in old(buckets) ==> outcome == NotFound && buckets == old(buckets)
      ensures values != [] && pk in old(buckets) ==>
        outcome == Saved && buckets == old(buckets)[pk := old(buckets)[pk].(mode := values[0])]
      ensures WellFormed(old(buckets)) ==> WellFormed(buckets)
    {
      if values == [] {
        return Saved;
      }
      if pk !in buckets {
        return NotFound;
      }
      buckets := buckets[pk := buckets[pk].(mode := values[0])];
      outcome := Saved;
    }

    /** `EditBucketView.selectPriority`: the first selected value, if any,
        becomes the bucket's priority. */
    method SelectPriority(pk: string, values: seq<real>) returns (outcome: Outcome)
      modifies this`buckets
      ensures values == [] ==> outcome == Saved && buckets == old(buckets)
      ensures values != [] && pk !in old(buckets) ==> outcome == NotFound && buckets == old(buckets)
      ensures values != [] && pk in old(buckets) ==>
        outcome == Saved && buckets == old(buckets)[pk := old(buckets)[pk].(priority := values[0])]
      ensures WellFormed(old(buckets)) ==> WellFormed(buckets)
    {
      if values == [] {
        return Saved;
      }
      if pk !in buckets {
        return NotFound;
      }
      buckets := buckets[pk := buckets[pk].(priority := values[0])];
      outcome := Saved;
    }

    /** `EditBucketView.deleteBucket`: every template whose bucket is this
        bucket's name is deleted, then the bucket itself. */
    method DeleteBucket(pk: string) returns (outcome: Outcome)
      modifies this
      ensures pk !in old(buckets) ==> outcome == NotFound && buckets == old(buckets) && templates == old(templates)
      ensures pk in old(buckets) ==>
        outcome == Saved && buckets == old(buckets) - {pk} &&
        templates == WithoutBucket(old(templates), old(buckets)[pk].id)
      ensures WellFormed(old(buckets)) ==> WellFormed(buckets)
    {
      if pk !in buckets {
        return NotFound;
      }
      var name := buckets[pk].id;
      templates := WithoutBucket(templates, name);
      buckets := buckets - {pk};
      outcome := Saved;
    }
  }

  /** After a deletion no template refers to the deleted bucket, every
      template of another bucket is kept, and in a well-formed store no
      remaining bucket has that name. */
  lemma DeleteCascade(buckets: map<string, BucketModel>, templates: map<string, TemplateModel>, pk: string)
    requires WellFormed(buckets) && pk in buckets
    ensures var name := buckets[pk].id;
      var left := WithoutBucket(templates, name);
      (forall t :: t in left ==> left[t].bucket != name) &&
      (forall t :: t in templates && templates[t].bucket != name ==> t in left && left[t] == templates[t]) &&
      !NameTaken(buckets - {pk}, name)
  {
  }

  /** A created bucket is found by its name afterwards, and it is the only
      bucket with that name. */
  lemma CreatedUnique(buckets: map<string, BucketModel>, pk: string, b: BucketModel)
    requires WellFormed(buckets) && !NameTaken(buckets, b.id)
    requires FilterError(b.filter).None? && 0 <= b.size <= MaxBucketSize
    ensures var after := buckets[pk := b];
      WellFormed(after) && NameTaken(after, b.id) &&
      forall q :: q in after && after[q].id == b.id ==> q == pk
  {
    var after := buckets[pk := b];
    assert pk in after && after[pk].id == b.id;
  }

  /** The bucket creation view's choices: API and manual recruitment at
      normal priority until the user picks others. */
  class CreateBucketView {
    var mode: int
    var priority: real

    constructor()
      ensures mode == ModeBoth && priority == 0.0
    {
      mode := ModeBoth;
      priority := 0.0;
    }

    /** `selectMode`: the first selected value, if any. */
    method SelectMode(values: seq<int>)
      modifies this`mode
      ensures mode == if values == [] then old(mode) else values[0]
    {
      if values != [] {
        mode := values[0];
      }
    }

    /** `selectPriority`: the first selected value, if any. */
    method SelectPriority(values: seq<real>)
      modifies this`priority
      ensures priority == if values == [] then old(priority) else values[0]
    {
      if values != [] {
        priority := values[0];
      }
    }

    /** `createBucket` opens the creation form with the current choices. */
    method Submit(store: BucketStore, pk: string, name: string, filter: string, sizeText: string)
      returns (outcome: Outcome)
      requires pk !in store.buckets
      modifies store`buckets
      ensures FilterError(filter).None? && SizeCheck(sizeText).Success? && !NameTaken(old(store.buckets), name) ==>
        outcome == Saved &&
        store.buckets == old(store.buckets)[pk := BucketModel(name, filter, SizeCheck(sizeText).value, priority, mode, [])]
      ensures !(FilterError(filter).None? && SizeCheck(sizeText).Success? && !NameTaken(old(store.buckets), name)) ==>
        outcome.Rejected? && store.buckets == old(store.buckets)
    {
      outcome := store.CreateBucket(pk, name, filter, sizeText, mode, priority);
    }
  }
}

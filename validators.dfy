/** The listing validators (src/apps/houserent/validators.py). A validator that
    raises ValidationError is modelled as returning its error dictionary; an
    empty dictionary (or None) means it raised nothing. */
module Validators {
  import opened Common
  import opened Rentals

  const StartAfterEnd := "Дата начала должна быть раньше даты окончания."
  const EndBeforeStart := "Дата окончания должна быть позже даты начала."
  const StartInPast := "Дата начала не может быть в прошлом."

  /** `validate_dates`: the errors raised for a stay from `start` to `end` judged on `today`. */
  function ValidateDates(start: Date, end: Date, today: Date): (errors: map<string, string>)
    ensures errors == map[] <==> DateLe(start, end) && DateLe(today, start)
    ensures DateLt(end, start) ==> "start_date" in errors && "end_date" in errors && errors["end_date"] == EndBeforeStart
    ensures DateLt(start, today) ==> "start_date" in errors && errors["start_date"] == StartInPast
    ensures DateLt(end, start) && !DateLt(start, today) ==> errors["start_date"] == StartAfterEnd
    ensures errors.Keys <= {"start_date", "end_date"}
  {
    DateLeTotalOrder(start, end, today);
    DateLeTotalOrder(today, start, end);
    var ordered: map<string, string> :=
      if DateLt(end, start) then map["start_date" := StartAfterEnd, "end_date" := EndBeforeStart] else map[];
    var errors := if DateLt(start, today) then ordered["start_date" := StartInPast] else ordered;
    assert DateLt(end, start) || DateLt(start, today) ==> "start_date" in errors;
    errors
  }

  /** Times of day in seconds since midnight. */
  type TimeOfDay = int

  const CheckInMessage := "Время заезда должно быть позже времени выезда."
  const CheckOutMessage := "Время выезда должно быть раньше времени заезда."

  /** `validate_times`: raises iff check-in is not strictly later than check-out. */
  function ValidateTimes(checkIn: TimeOfDay, checkOut: TimeOfDay): (errors: map<string, string>)
    ensures errors == map[] <==> checkIn > checkOut
    ensures errors != map[] ==> errors == map["check_in" := CheckInMessage, "check_out" := CheckOutMessage]
  {
    if checkIn <= checkOut then
      var errors := map["check_in" := CheckInMessage, "check_out" := CheckOutMessage];
      assert "check_in" in errors;
      errors
    else map[]
  }

  const DuplicateName := "Объект с таким именем уже существует у данного вендора."

  /** The listing being validated clashes with `o`: same vendor and name, another row.
      `exclude(id=None)` keeps every row, so a new listing (no id) clashes with any namesake. */
  predicate Clashes(o: LocationObject, id: Option<Id>, name: string, vendor: Id) {
    o.name == name && o.vendor == vendor && (id.None? || o.id != id.value)
  }

  /** `validate_unique_names_for_objects`: the error raised, if any. */
  function ValidateUniqueNames(objects: seq<LocationObject>, id: Option<Id>, name: string, vendor: Id): (error: Option<string>)
    ensures error.Some? <==> exists i :: 0 <= i < |objects| && Clashes(objects[i], id, name, vendor)
    ensures error.Some? ==> error.value == DuplicateName
  {
    if exists i :: 0 <= i < |objects| && Clashes(objects[i], id, name, vendor) then Some(DuplicateName) else None
  }

  /** A listing is never in conflict with itself, nor with another vendor's namesake. */
  lemma UniqueNameIgnoresSelfAndOthers(objects: seq<LocationObject>, o: LocationObject)
    requires forall i :: 0 <= i < |objects| && objects[i].name == o.name && objects[i].vendor == o.vendor ==> objects[i].id == o.id
    ensures ValidateUniqueNames(objects, Some(o.id), o.name, o.vendor).None?
  {
  }

  const PlacementWords := ["город", "село", "поселок", "область", "район"]

  /** `check_placement`: some whitespace-separated word of the lower-cased name is one of the
      placement words. The error text lists them joined with ", ". */
  function CheckPlacement(name: string): (error: Option<map<string, string>>)
    ensures error.None? <==> exists w :: w in Words(Lower(name)) && w in PlacementWords
    ensures error.Some? ==> error.value == map["name" := "Название должно содержать одно из следующих значений: " + Join(PlacementWords, ", ")]
  {
    var words := Words(Lower(name));
    if exists i :: 0 <= i < |PlacementWords| && PlacementWords[i] in words then
      var i :| 0 <= i < |PlacementWords| && PlacementWords[i] in words;
      assert PlacementWords[i] in PlacementWords;
      None
    else Some(map["name" := "Название должно содержать одно из следующих значений: " + Join(PlacementWords, ", ")])
  }

  /** A placement word after any name and a space is accepted. */
  lemma PlacementWordAccepted(prefix: string, word: string)
    requires word in PlacementWords
    ensures CheckPlacement(prefix + " " + word).None?
  {
    PlacementWordIsOneWord(word);
    LowerAroundSpace(prefix, word);
    WordsAtSpace(Lower(prefix), ' ', word);
    assert word in Words(Lower(prefix + " " + word));
  }

  lemma LowerAroundSpace(prefix: string, word: string)
    ensures Lower(prefix + " " + word) == Lower(prefix) + [' '] + Lower(word)
  {
    LowerAppend(prefix, " " + word);
    LowerAppend(" ", word);
  }

  /** A name of one word is accepted iff its lower-case form is a placement word: the match
      is on whole words, so "городской", which merely contains "город", is rejected. */
  lemma SingleWordNeedsPlacementWord(w: string)
    requires w != [] && forall i :: 0 <= i < |w| ==> !IsSpace(w[i])
    ensures CheckPlacement(w).None? <==> Lower(w) in PlacementWords
  {
    LowerOfOneWord(w);
  }

  /** Lower-casing never turns a character into whitespace, so one word stays one word. */
  lemma LowerOfOneWord(w: string)
    requires w != [] && forall i :: 0 <= i < |w| ==> !IsSpace(w[i])
    ensures Words(Lower(w)) == [Lower(w)]
  {
    forall i | 0 <= i < |w| ensures !IsSpace(LowerChar(w[i])) {
      LowerKeepsSpaces(w[i]);
    }
    WordsOfOneWord(Lower(w));
  }

  lemma LowerKeepsSpaces(c: char)
    requires !IsSpace(c)
    ensures !IsSpace(LowerChar(c))
  {
  }

  /** Every character from position `i` on is a lower-case Cyrillic letter from а to я. */
  predicate CyrillicFrom(w: string, i: nat)
    decreases |w| - i
  {
    i >= |w| || ('а' <= w[i] <= 'я' && CyrillicFrom(w, i + 1))
  }

  /** Such a word is its own lower-case form and a single word. */
  lemma LowerCyrillicWord(w: string)
    requires w != [] && CyrillicFrom(w, 0)
    ensures Lower(w) == w && Words(w) == [w]
  {
    CyrillicChars(w, 0);
    forall i | 0 <= i < |w| ensures LowerChar(w[i]) == w[i] && !IsSpace(w[i]) {
      assert 'а' <= w[i] <= 'я';
    }
    WordsOfOneWord(w);
  }

  lemma {:induction false} CyrillicChars(w: string, i: nat)
    requires CyrillicFrom(w, i)
    ensures forall k :: i <= k < |w| ==> 'а' <= w[k] <= 'я'
    decreases |w| - i
  {
    if i < |w| {
      CyrillicChars(w, i + 1);
    }
  }

  lemma GorodCyrillic() ensures CyrillicFrom("город", 0) {}
  lemma SeloCyrillic() ensures CyrillicFrom("село", 0) {}
  lemma PoselokCyrillic() ensures CyrillicFrom("поселок", 0) {}
  lemma OblastCyrillic() ensures CyrillicFrom("область", 0) {}
  lemma RaionCyrillic() ensures CyrillicFrom("район", 0) {}

  /** Each placement word is a lower-case single word. */
  lemma PlacementWordIsOneWord(word: string)
    requires word in PlacementWords
    ensures Words(word) == [word] && Lower(word) == word
  {
    GorodCyrillic();
    SeloCyrillic();
    PoselokCyrillic();
    OblastCyrillic();
    RaionCyrillic();
    LowerCyrillicWord(word);
  }
}

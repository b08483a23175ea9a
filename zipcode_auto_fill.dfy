/** The postal-code autofill: the typed code is reduced to its digits and,
    once the input has been quiet, looked up when exactly seven digits are
    left; the first match fills prefecture, city and town (street is for
    the user), and every change of the address is announced with the whole
    address concatenated. */
module ZipcodeAutoFill {
  import opened Common
  import opened Text

  const PostalLength := 7
  const NotFoundTitle := "見つかりませんでした"
  const NotFoundMessage := "該当する住所がありません。"
  const LookupFailedTitle := "検索に失敗しました"

  /** One match of the lookup service; the three address parts may be
      missing. */
  datatype AddressDto = AddressDto(
    prefecture: Option<string>, city: Option<string>, town: Option<string>,
    full: string, zipcode: string)

  /** An entry of the match picker: `caption` is its `label`, and its key
      `value` is the match's index. */
  datatype AddressOption = AddressOption(caption: string, value: string, dto: AddressDto)

  /** The detail of an `addresschange` event. */
  datatype AddressDetail = AddressDetail(
    postal: string, prefecture: string, city: string, town: string, street: string, full: string)

  datatype Event = ShowToast(toast: Toast) | AddressChange(detail: AddressDetail)

  /** The fields a manual edit can name. */
  datatype AddressField = Prefecture | City | Town | Street

  /** What every `addresschange` carries: a digits-only postal code and the
      four parts concatenated in order as the full address. */
  predicate WellFormedDetail(d: AddressDetail) {
    AllDigits(d.postal) && d.full == d.prefecture + d.city + d.town + d.street
  }

  function OptionLabel(dto: AddressDto): string {
    dto.full + "（" + dto.zipcode + "）"
  }

  function OptionsFrom(results: seq<AddressDto>, start: nat): (r: seq<AddressOption>)
    ensures |r| == |results|
    ensures forall i :: 0 <= i < |r| ==>
              r[i].value == NatToString(start + i) && r[i].dto == results[i]
              && r[i].caption == OptionLabel(results[i])
  {
    if results == [] then []
    else [AddressOption(OptionLabel(results[0]), NatToString(start), results[0])]
         + OptionsFrom(results[1..], start + 1)
  }

  /** The `map` from matches to picker entries: entry `i` has key `String(i)`
      and carries match `i`. */
  function ToOptions(results: seq<AddressDto>): (r: seq<AddressOption>)
    ensures |r| == |results|
    ensures forall i :: 0 <= i < |r| ==> r[i].value == NatToString(i) && r[i].dto == results[i]
  {
    OptionsFrom(results, 0)
  }

  /** Keys of the picker are the indices' texts. */
  predicate IndexKeyed(options: seq<AddressOption>) {
    forall i :: 0 <= i < |options| ==> options[i].value == NatToString(i)
  }

  /** `options.find(o => o.value === key)`: the first entry with that key. */
  function FindOption(options: seq<AddressOption>, key: string): (r: Option<AddressOption>)
    ensures r.Some? ==> r.value in options && r.value.value == key
    ensures r.None? ==> forall i :: 0 <= i < |options| ==> options[i].value != key
  {
    if options == [] then None
    else if options[0].value == key then Some(options[0])
    else FindOption(options[1..], key)
  }

  lemma {:induction false} FindOptionAt(options: seq<AddressOption>, i: nat)
    requires i < |options|
    requires forall j :: 0 <= j < i ==> options[j].value != options[i].value
    ensures FindOption(options, options[i].value) == Some(options[i])
  {
    if i > 0 {
      FindOptionAt(options[1..], i - 1);
    }
  }

  /** In an index-keyed picker the key `String(i)` finds entry `i`, so
      choosing an entry applies exactly that entry's match. */
  lemma FindIndexKey(options: seq<AddressOption>, i: nat)
    requires IndexKeyed(options) && i < |options|
    ensures FindOption(options, NatToString(i)) == Some(options[i])
  {
    forall j | 0 <= j < i
      ensures options[j].value != options[i].value
    {
      if options[j].value == options[i].value {
        NatToStringInjective(j, i);
      }
    }
    FindOptionAt(options, i);
  }

  /** Every code sent to the lookup service had exactly seven digits. */
  predicate SevenDigitLookups(lookups: seq<string>) {
    forall i :: 0 <= i < |lookups| ==> |DigitsOnly(lookups[i])| == PostalLength
  }

  /** Every `addresschange` dispatched is well formed. */
  predicate WellFormedChanges(events: seq<Event>) {
    forall i :: 0 <= i < |events| ==> events[i].AddressChange? ==> WellFormedDetail(events[i].detail)
  }

  class ZipcodeAutoFill {
    var postal: string
    var prefecture: string
    var city: string
    var town: string
    var street: string
    var loading: bool
    /** The single debounce slot: whether a lookup check is scheduled. */
    var timerPending: bool
    var options: seq<AddressOption>
    var selectedKey: Option<string>
    /** Toasts and `addresschange` events dispatched, oldest first. */
    var events: seq<Event>
    /** Postal codes sent to the lookup service, oldest first. */
    var lookups: seq<string>

    /** The picker is keyed by index, every code sent to the service had
        exactly seven digits, and every `addresschange` is well formed. */
    ghost predicate Consistent()
      reads this`options, this`lookups, this`events
    {
      IndexKeyed(options) && SevenDigitLookups(lookups) && WellFormedChanges(events)
    }

    /** Between handlers, moreover, nothing is loading. */
    ghost predicate Valid()
      reads this
    {
      !loading && Consistent()
    }

    constructor ()
      ensures Valid()
      ensures postal == "" && prefecture == "" && city == "" && town == "" && street == ""
      ensures !loading && !timerPending && options == [] && selectedKey.None?
      ensures events == [] && lookups == []
    {
      postal, prefecture, city, town, street := "", "", "", "", "";
      loading, timerPending, options, selectedKey := false, false, [], None;
      events, lookups := [], [];
    }

    /** `postalSanitized`: the digits of the postal code, in order. They
        are ASCII, so its JavaScript `.length` is its number of characters. */
    function PostalSanitized(): (r: string)
      reads this
      ensures AllDigits(r) && |r| <= |postal|
      ensures Utf16Length(r) == |r|
      ensures AllDigits(postal) ==> r == postal
    {
      AsciiUtf16Length(DigitsOnly(postal));
      if AllDigits(postal) then FilterKeepsKept(IsDigit, postal); DigitsOnly(postal)
      else DigitsOnly(postal)
    }

    /** `hasOptions`: the picker is shown only for more than one match. */
    predicate HasOptions()
      reads this
      ensures HasOptions() <==> |options| >= 2
    {
      |options| > 1
    }

    function Detail(): (d: AddressDetail)
      reads this
      ensures WellFormedDetail(d)
    {
      AddressDetail(PostalSanitized(), prefecture, city, town, street, prefecture + city + town + street)
    }

    /** `notifyChange`: one `addresschange` with the current address. */
    method NotifyChange()
      requires Consistent()
      modifies this`events
      ensures Consistent()
      ensures events == old(events) + [AddressChange(Detail())]
    {
      events := events + [AddressChange(Detail())];
    }

    /** Fills prefecture, city and town from a match (a missing part becomes
        empty), never the street, and announces the change once. */
    method ApplyDto(dto: AddressDto)
      requires Consistent()
      modifies this`prefecture, this`city, this`town, this`events
      ensures Consistent()
      ensures prefecture == OrEmpty(dto.prefecture) && city == OrEmpty(dto.city) && town == OrEmpty(dto.town)
      ensures events == old(events) + [AddressChange(Detail())]
    {
      prefecture := OrEmpty(dto.prefecture);
      city := OrEmpty(dto.city);
      town := OrEmpty(dto.town);
      NotifyChange();
    }

    /** A change of the postal input: the code is stored and the one pending
        check is (re)scheduled. */
    method HandlePostalChange(value: string)
      modifies this`postal, this`timerPending
      ensures postal == value && timerPending
    {
      postal := value;
      timerPending := true;
    }

    /** The scheduled check runs, if one is pending: any digit count but
        seven empties the picker and changes nothing else; seven digits start
        a lookup of the code as typed, with the outcomes of `Search`. */
    method FireTimer(response: Response<Option<seq<AddressDto>>>)
      requires Valid()
      modifies this
      ensures Valid()
      ensures !timerPending
      ensures !old(timerPending) ==> unchanged(this)
      ensures old(timerPending) && |old(PostalSanitized())| == PostalLength ==>
                lookups == old(lookups) + [old(postal)]
                && postal == old(postal) && street == old(street) && !loading
      ensures old(timerPending) && |old(PostalSanitized())| == PostalLength
              && (response.Failure? || (response.Success? && ListOrEmpty(response.payload) == [])) ==>
                options == old(options) && selectedKey == old(selectedKey)
                && prefecture == old(prefecture) && city == old(city) && town == old(town)
      ensures old(timerPending) && |old(PostalSanitized())| == PostalLength && response.Failure? ==>
                events == old(events) + [ShowToast(Toast(LookupFailedTitle, ErrorMessage(response.err), Error))]
      ensures old(timerPending) && |old(PostalSanitized())| == PostalLength
              && response.Success? && ListOrEmpty(response.payload) == [] ==>
                events == old(events) + [ShowToast(Toast(NotFoundTitle, NotFoundMessage, Warning))]
      ensures old(timerPending) && |old(PostalSanitized())| == PostalLength
              && response.Success? && ListOrEmpty(response.payload) != [] ==>
                var matches := ListOrEmpty(response.payload);
                options == ToOptions(matches)
                && selectedKey == (if |matches| > 1 then Some("0") else old(selectedKey))
                && prefecture == OrEmpty(matches[0].prefecture)
                && city == OrEmpty(matches[0].city)
                && town == OrEmpty(matches[0].town)
                && events == old(events) + [AddressChange(Detail())]
      ensures postal == old(postal) && street == old(street)
      ensures old(timerPending) && |old(PostalSanitized())| != PostalLength ==>
                options == [] && selectedKey.None? && lookups == old(lookups) && events == old(events)
                && prefecture == old(prefecture) && city == old(city) && town == old(town) && street == old(street)
    {
      if !timerPending {
        return;
      }
      timerPending := false;
      if |PostalSanitized()| == PostalLength {
        Search(response);
      } else {
        options := [];
        selectedKey := None;
      }
    }

    /** `search` with `response` the outcome of the lookup service, which
        is given the postal code as typed. No match: a warning and nothing
        else changes. A failure: an error toast and nothing else changes.
        Matches: the picker lists them all, the first is applied, and it is
        preselected when there is a choice. */
    method Search(response: Response<Option<seq<AddressDto>>>)
      requires Valid() && |PostalSanitized()| == PostalLength
      modifies this
      ensures Valid()
      ensures lookups == old(lookups) + [postal]
      ensures postal == old(postal) && street == old(street) && timerPending == old(timerPending) && !loading
      ensures response.Failure? || (response.Success? && ListOrEmpty(response.payload) == []) ==>
                options == old(options) && selectedKey == old(selectedKey)
                && prefecture == old(prefecture) && city == old(city) && town == old(town)
      ensures response.Failure? ==>
                events == old(events) + [ShowToast(Toast(LookupFailedTitle, ErrorMessage(response.err), Error))]
      ensures response.Success? && ListOrEmpty(response.payload) == [] ==>
                events == old(events) + [ShowToast(Toast(NotFoundTitle, NotFoundMessage, Warning))]
      ensures response.Success? && ListOrEmpty(response.payload) != [] ==>
                var matches := ListOrEmpty(response.payload);
                options == ToOptions(matches)
                && (HasOptions() <==> |matches| > 1)
                && selectedKey == (if |matches| > 1 then Some("0") else old(selectedKey))
                && prefecture == OrEmpty(matches[0].prefecture)
                && city == OrEmpty(matches[0].city)
                && town == OrEmpty(matches[0].town)
                && events == old(events) + [AddressChange(Detail())]
    {
      lookups := lookups + [postal];
      Lookup(response);
    }

    /** The awaited lookup itself, with `loading` set around it, and what
        its outcome shows. */
    method Lookup(response: Response<Option<seq<AddressDto>>>)
      requires Consistent()
      modifies this`loading, this`options, this`selectedKey, this`prefecture, this`city, this`town, this`events
      ensures Consistent() && !loading
      ensures response.Failure? || (response.Success? && ListOrEmpty(response.payload) == []) ==>
                options == old(options) && selectedKey == old(selectedKey)
                && prefecture == old(prefecture) && city == old(city) && town == old(town)
      ensures response.Failure? ==>
                events == old(events) + [ShowToast(Toast(LookupFailedTitle, ErrorMessage(response.err), Error))]
      ensures response.Success? && ListOrEmpty(response.payload) == [] ==>
                events == old(events) + [ShowToast(Toast(NotFoundTitle, NotFoundMessage, Warning))]
      ensures response.Success? && ListOrEmpty(response.payload) != [] ==>
                var matches := ListOrEmpty(response.payload);
                options == ToOptions(matches)
                && selectedKey == (if |matches| > 1 then Some("0") else old(selectedKey))
                && prefecture == OrEmpty(matches[0].prefecture)
                && city == OrEmpty(matches[0].city)
                && town == OrEmpty(matches[0].town)
                && events == old(events) + [AddressChange(Detail())]
    {
      loading := true;
      match response {
        case Failure(err) =>
          DispatchToast(Toast(LookupFailedTitle, ErrorMessage(err), Error));
        case Success(results) =>
          var matches := ListOrEmpty(results);
          if matches == [] {
            DispatchToast(Toast(NotFoundTitle, NotFoundMessage, Warning));
          } else {
            ShowMatches(matches);
          }
      }
      loading := false;
    }

    method DispatchToast(t: Toast)
      requires Consistent()
      modifies this`events
      ensures Consistent()
      ensures events == old(events) + [ShowToast(t)]
    {
      events := events + [ShowToast(t)];
    }

    /** The non-empty branch of `search`: list every match, preselect the
        first when there is a choice, and apply the first. */
    method ShowMatches(matches: seq<AddressDto>)
      requires Consistent() && matches != []
      modifies this`options, this`selectedKey, this`prefecture, this`city, this`town, this`events
      ensures Consistent()
      ensures options == ToOptions(matches)
      ensures selectedKey == (if |matches| > 1 then Some("0") else old(selectedKey))
      ensures prefecture == OrEmpty(matches[0].prefecture) && city == OrEmpty(matches[0].city)
              && town == OrEmpty(matches[0].town)
      ensures events == old(events) + [AddressChange(Detail())]
    {
      options := ToOptions(matches);
      if |options| != 1 {
        selectedKey := Some(options[0].value);
      }
      ApplyDto(options[0].dto);
    }

    /** A pick in the match list: the key is always stored, and the match
        with that key, if there is one, is applied. */
    method HandleSelect(key: string)
      requires Valid()
      modifies this
      ensures Valid()
      ensures selectedKey == Some(key)
      ensures options == old(options) && postal == old(postal) && street == old(street)
      ensures lookups == old(lookups) && timerPending == old(timerPending)
      ensures FindOption(options, key).None? ==>
                events == old(events)
                && prefecture == old(prefecture) && city == old(city) && town == old(town)
      ensures FindOption(options, key).Some? ==>
                var dto := FindOption(options, key).value.dto;
                prefecture == OrEmpty(dto.prefecture) && city == OrEmpty(dto.city) && town == OrEmpty(dto.town)
                && events == old(events) + [AddressChange(Detail())]
    {
      selectedKey := Some(key);
      var opt := FindOption(options, key);
      if opt.Some? {
        ApplyDto(opt.value.dto);
      }
    }

    /** A manual edit of one address field (a missing value becomes empty):
        only that field changes, then the change is announced. */
    method HandleManualEdit(field: AddressField, value: Option<string>)
      requires Valid()
      modifies this
      ensures Valid()
      ensures field == Prefecture ==> prefecture == OrEmpty(value)
      ensures field == City ==> city == OrEmpty(value)
      ensures field == Town ==> town == OrEmpty(value)
      ensures field == Street ==> street == OrEmpty(value)
      ensures field != Prefecture ==> prefecture == old(prefecture)
      ensures field != City ==> city == old(city)
      ensures field != Town ==> town == old(town)
      ensures field != Street ==> street == old(street)
      ensures postal == old(postal) && options == old(options) && selectedKey == old(selectedKey)
      ensures lookups == old(lookups) && timerPending == old(timerPending) && loading == old(loading)
      ensures events == old(events) + [AddressChange(Detail())]
    {
      var text := OrEmpty(value);
      match field {
        case Prefecture => prefecture := text;
        case City => city := text;
        case Town => town := text;
        case Street => street := text;
      }
      NotifyChange();
    }
  }
}

/**
 * The logic of the add/edit screen: the input filters, the save-time
 * next-due loop, the record assembled in each save branch, the colour
 * picker's selection test, and the screen's remembered state with its
 * `uploading` flag.
 */
module AddEditSubscriptionScreen {
  import opened Wrappers
  import opened Text
  import opened SubscriptionData
  import opened CalendarStep
  import opened ColorGradients
  import SubscriptionListScreen

  // ----- Input filters -----

  /** `ch.isDigit() || ch == '.'`, with decimal digits taken as ASCII. */
  predicate IsPriceChar(c: char): (b: bool)
    ensures b <==> c in "0123456789."
  {
    '0' <= c <= '9' || c == '.'
  }

  /** The price field's `input.filter { ... }`. */
  function FilterPrice(input: string): (r: string)
    ensures forall i :: 0 <= i < |r| ==> IsPriceChar(r[i])
    ensures |r| <= |input|
  {
    if input == [] then []
    else (if IsPriceChar(input[0]) then [input[0]] else []) + FilterPrice(input[1..])
  }

  /** `a` can be obtained from `b` by deleting characters. */
  predicate IsSubsequence(a: string, b: string)
    decreases |b|
  {
    if a == [] then true
    else if b == [] then false
    else if a[0] == b[0] then IsSubsequence(a[1..], b[1..])
    else IsSubsequence(a, b[1..])
  }

  /** The filtered price keeps the input's order. */
  lemma {:induction false} FilterPriceIsSubsequence(input: string)
    ensures IsSubsequence(FilterPrice(input), input)
  {
    if input != [] {
      var rest := FilterPrice(input[1..]);
      FilterPriceIsSubsequence(input[1..]);
      if IsPriceChar(input[0]) {
        assert FilterPrice(input) == [input[0]] + rest;
        assert ([input[0]] + rest)[1..] == rest;
      } else {
        assert FilterPrice(input) == rest;
      }
    }
  }

  /** The filtered price holds every digit and dot of the input and nothing else. */
  lemma {:induction false} FilterPriceCounts(input: string, c: char)
    ensures multiset(FilterPrice(input))[c] == if IsPriceChar(c) then multiset(input)[c] else 0
  {
    if input != [] {
      FilterPriceCounts(input[1..], c);
      assert input == [input[0]] + input[1..];
    }
  }

  /** Text that is already digits and dots passes the filter unchanged. */
  lemma {:induction false} FilterPriceKeepsPriceText(input: string)
    requires forall i :: 0 <= i < |input| ==> IsPriceChar(input[i])
    ensures FilterPrice(input) == input
  {
    if input != [] {
      FilterPriceKeepsPriceText(input[1..]);
      assert input == [input[0]] + input[1..];
    }
  }

  /** Filtering twice is filtering once. */
  lemma FilterPriceIdempotent(input: string)
    ensures FilterPrice(FilterPrice(input)) == FilterPrice(input)
  {
    FilterPriceKeepsPriceText(FilterPrice(input));
  }

  /** The icon field's `input.take(2)`. */
  function FilterIconKey(input: string): (r: string)
    ensures r <= input
    ensures |r| == if |input| < 2 then |input| else 2
  {
    Take(input, 2)
  }

  /** A key of at most two characters passes the icon filter unchanged, so filtering twice is filtering once. */
  lemma FilterIconKeyIdempotent(input: string)
    ensures |input| <= 2 ==> FilterIconKey(input) == input
    ensures FilterIconKey(FilterIconKey(input)) == FilterIconKey(input)
  {
  }

  // ----- The save-time next-due loop -----

  /**
   * The first time reached from `t` by whole cycles that is at or after
   * `now` (`t` itself when it already is).
   */
  function NextAtOrAfter(cal: Calendar, cycle: CycleType, t: int, now: int): (r: int)
    requires Advances(cal)
    ensures r >= now
    ensures t >= now ==> r == t
    ensures r >= t
    decreases if t >= now then 0 else now - t
  {
    if t >= now then t else NextAtOrAfter(cal, cycle, Add(cal, cycle, t), now)
  }

  /** `r` is `t` advanced by `k` steps, and every earlier step is before `now`. */
  ghost predicate FirstStepReaching(cal: Calendar, cycle: CycleType, t: int, now: int, r: int, k: nat) {
    && r == Iterate(cal, cycle, t, k)
    && (forall j: nat :: j < k ==> Iterate(cal, cycle, t, j) < now)
  }

  /** The save loop stops after the least number of steps that reaches `now`. */
  lemma {:induction false} NextAtOrAfterIsLeastStep(cal: Calendar, cycle: CycleType, t: int, now: int)
    requires Advances(cal)
    ensures exists k: nat :: FirstStepReaching(cal, cycle, t, now, NextAtOrAfter(cal, cycle, t, now), k)
    decreases if t >= now then 0 else now - t
  {
    var r := NextAtOrAfter(cal, cycle, t, now);
    if t >= now {
      assert FirstStepReaching(cal, cycle, t, now, r, 0);
    } else {
      var t' := Add(cal, cycle, t);
      NextAtOrAfterIsLeastStep(cal, cycle, t', now);
      var k: nat :| FirstStepReaching(cal, cycle, t', now, r, k);
      IterateShift(cal, cycle, t, k);
      forall j: nat | j < k + 1
        ensures Iterate(cal, cycle, t, j) < now
      {
        if j > 0 {
          IterateShift(cal, cycle, t, j - 1);
          assert Iterate(cal, cycle, t', j - 1) < now;
        }
      }
      assert FirstStepReaching(cal, cycle, t, now, r, k + 1);
    }
  }

  /**
   * `while (calcCalendar.timeInMillis < now) calcCalendar.add(...)`: step
   * the start date by the cycle until it is no longer before `now`.
   */
  method SaveNextDue(startDate: int, cycle: CycleType, now: int, cal: Calendar) returns (nextDue: int)
    requires Advances(cal)
    ensures nextDue == NextAtOrAfter(cal, cycle, startDate, now)
    ensures nextDue >= now
    ensures startDate >= now ==> nextDue == startDate
  {
    nextDue := startDate;
    while nextDue < now
      invariant NextAtOrAfter(cal, cycle, nextDue, now) == NextAtOrAfter(cal, cycle, startDate, now)
      invariant nextDue >= startDate
      decreases now - nextDue
    {
      nextDue := Add(cal, cycle, nextDue);
    }
  }

  /**
   * The list's countdown target is the saved next-due date, stepped once
   * more exactly when the saved date equals `now`.
   */
  lemma {:induction false} ShownVersusSaved(cal: Calendar, cycle: CycleType, t: int, now: int)
    requires Advances(cal)
    ensures var saved := NextAtOrAfter(cal, cycle, t, now);
            SubscriptionListScreen.NextStrictlyAfter(cal, cycle, t, now)
              == if saved > now then saved else Add(cal, cycle, saved)
    decreases if t >= now then 0 else now - t
  {
    if t < now {
      ShownVersusSaved(cal, cycle, Add(cal, cycle, t), now);
    }
  }

  /** Counting down from the saved date shows what counting down from the start date shows. */
  lemma CountdownFromSavedAgrees(cal: Calendar, cycle: CycleType, t: int, now: int)
    requires Advances(cal)
    ensures SubscriptionListScreen.NextStrictlyAfter(cal, cycle, NextAtOrAfter(cal, cycle, t, now), now)
            == SubscriptionListScreen.NextStrictlyAfter(cal, cycle, t, now)
  {
    ShownVersusSaved(cal, cycle, t, now);
    var saved := NextAtOrAfter(cal, cycle, t, now);
    if saved == now {
      assert SubscriptionListScreen.NextStrictlyAfter(cal, cycle, saved, now)
          == SubscriptionListScreen.NextStrictlyAfter(cal, cycle, Add(cal, cycle, saved), now);
    }
  }

  /** Saving on the start date itself stores `now`, while the list shows one cycle later. */
  lemma SavedAndShownDifferOnStartDate(cal: Calendar, cycle: CycleType, now: int)
    requires Advances(cal)
    ensures NextAtOrAfter(cal, cycle, now, now) == now
    ensures SubscriptionListScreen.NextStrictlyAfter(cal, cycle, now, now) == Add(cal, cycle, now)
    ensures SubscriptionListScreen.NextStrictlyAfter(cal, cycle, now, now) != NextAtOrAfter(cal, cycle, now, now)
  {
    ShownVersusSaved(cal, cycle, now, now);
  }

  // ----- Record assembly -----

  /** The screen's editable fields, as remembered between recompositions. */
  datatype Form = Form(
    name: string,
    price: string,
    startDate: int,
    cycle: CycleType,
    iconKey: string,
    iconUri: Option<string>,
    colorHex: Option<string>)

  const InitialIconKey: string := "🎯"
  const PlaceholderIconKey: string := "📦"

  /** The fields as first remembered; `clock` is the time the screen opened. */
  function InitialForm(clock: int): (f: Form)
    ensures f.cycle == Monthly && f.iconUri.None? && f.colorHex.None?
    ensures f.name == "" && f.price == "" && f.startDate == clock && f.iconKey == InitialIconKey
  {
    Form("", "", clock, Monthly, InitialIconKey, None, None)
  }

  /**
   * `LaunchedEffect(original)`: the fields loaded from an existing record;
   * `priceText` is `original.price.toString()`.
   */
  function LoadedForm(original: Subscription, priceText: string): (f: Form)
    ensures f.cycle == CycleOf(original.cycleInDays)
    ensures f.name == original.name && f.price == priceText && f.startDate == original.startDate
    ensures f.iconKey == original.iconKey && f.iconUri == original.iconUri && f.colorHex == original.colorHex
  {
    Form(original.name, priceText, original.startDate, CycleOf(original.cycleInDays),
         original.iconKey, original.iconUri, original.colorHex)
  }

  /** `original?.id ?: ""`. */
  function OriginalId(original: Option<Subscription>): (id: string)
    ensures original.None? ==> id == ""
    ensures original.Some? ==> id == original.value.id
  {
    match original
    case Some(o) => o.id
    case None => ""
  }

  /** `iconKey.ifBlank { "📦" }`: never blank. */
  function SavedIconKey(typed: string): (r: string)
    ensures !IsBlank(r)
    ensures !IsBlank(typed) ==> r == typed
    ensures IsBlank(typed) ==> r == PlaceholderIconKey
  {
    assert !IsWhitespace(PlaceholderIconKey[0]);
    IfBlank(typed, PlaceholderIconKey)
  }

  /** A picked image that is a local `content://` URI is uploaded before saving. */
  predicate NeedsUpload(form: Form): (b: bool)
    ensures form.iconUri.None? ==> !b
    ensures b ==> !StartsWith(form.iconUri.value, "http")
  {
    if form.iconUri.Some? && StartsWith(form.iconUri.value, "content://") then
      assert form.iconUri.value[0] == "content://"[0];
      true
    else false
  }

  /** Without an upload: the picked URI when it is a web address, else the original's. */
  function KeptIconUri(form: Form, original: Option<Subscription>): (r: Option<string>)
    ensures form.iconUri.Some? && StartsWith(form.iconUri.value, "http") ==> r == form.iconUri
    ensures !(form.iconUri.Some? && StartsWith(form.iconUri.value, "http")) ==>
              r == (if original.Some? then original.value.iconUri else None)
  {
    if form.iconUri.Some? && StartsWith(form.iconUri.value, "http") then form.iconUri
    else match original
         case Some(o) => o.iconUri
         case None => None
  }

  /**
   * The fields both save branches set alike: the original's id (or "" when
   * adding), the trimmed name, the stored day count of the chosen cycle, the
   * start date, the computed next-due date and the colour key unchanged;
   * `notes` is not passed and so falls back to null.
   */
  predicate CommonFields(r: Subscription, form: Form, original: Option<Subscription>, price: real, nextDue: int) {
    && r.id == OriginalId(original)
    && r.name == Trim(form.name)
    && r.price == price
    && r.cycleInDays == CycleDays(form.cycle)
    && r.startDate == form.startDate
    && r.nextDueDate == nextDue
    && r.notes == None
    && r.colorHex == form.colorHex
  }

  /**
   * The record built in the upload callback; `price` is
   * `price.toDoubleOrNull() ?: 0.0` and `uploadedUrl` the upload's result.
   */
  function UploadedRecord(form: Form, original: Option<Subscription>, price: real, nextDue: int,
                          uploadedUrl: Option<string>): (r: Subscription)
    ensures CommonFields(r, form, original, price, nextDue)
    ensures CycleOf(r.cycleInDays) == form.cycle
    ensures r.iconUri == uploadedUrl
    ensures uploadedUrl.Some? ==> r.iconKey == ""
    ensures uploadedUrl.None? ==> !IsBlank(r.iconKey) && r.iconKey == SavedIconKey(form.iconKey)
  {
    Subscription(
      OriginalId(original), Trim(form.name), price, CycleDays(form.cycle), form.startDate, nextDue,
      None, if uploadedUrl.None? then SavedIconKey(form.iconKey) else "", uploadedUrl, form.colorHex)
  }

  /** The record built when no upload is needed. */
  function DirectRecord(form: Form, original: Option<Subscription>, price: real, nextDue: int): (r: Subscription)
    ensures CommonFields(r, form, original, price, nextDue)
    ensures CycleOf(r.cycleInDays) == form.cycle
    ensures !IsBlank(r.iconKey) && r.iconKey == SavedIconKey(form.iconKey)
    ensures r.iconUri == KeptIconUri(form, original)
  {
    Subscription(
      OriginalId(original), Trim(form.name), price, CycleDays(form.cycle), form.startDate, nextDue,
      None, SavedIconKey(form.iconKey), KeptIconUri(form, original), form.colorHex)
  }

  /**
   * Opening a record and saving it without touching any field gives the
   * record back with only its next-due date recomputed, provided it is in
   * the form the direct branch or a failed upload saves: trimmed name, 30
   * or 365 days, a non-blank icon key, no notes and no local icon URI. The
   * loaded price text is taken to parse back to the stored price.
   */
  lemma ResaveUnchanged(o: Subscription, priceText: string, nextDue: int)
    requires Trim(o.name) == o.name
    requires o.cycleInDays == 30 || o.cycleInDays == 365
    requires !IsBlank(o.iconKey)
    requires o.notes == None
    requires o.iconUri.Some? ==> !StartsWith(o.iconUri.value, "content://")
    ensures !NeedsUpload(LoadedForm(o, priceText))
    ensures DirectRecord(LoadedForm(o, priceText), Some(o), o.price, nextDue) == o.(nextDueDate := nextDue)
  {
    CycleRoundTrip(Monthly, o.cycleInDays);
  }

  /**
   * Resaving a record loses what the screen cannot show: any day count
   * other than 30 or 365 and any notes.
   */
  lemma ResaveNormalises(o: Subscription, priceText: string, nextDue: int)
    ensures var r := DirectRecord(LoadedForm(o, priceText), Some(o), o.price, nextDue);
            && r.cycleInDays == (if o.cycleInDays >= 365 then 365 else 30)
            && r.notes == None
            && r.id == o.id
  {
  }

  /**
   * A record saved after a successful upload to a web address has the icon
   * key "". Resaving it untouched takes the direct branch and stores the
   * placeholder key instead, while the icon URI and the card's image stay
   * the same.
   */
  lemma ResaveAfterUpload(form: Form, original: Option<Subscription>, price: real, nextDue: int,
                          url: string, priceText: string, nextDue2: int)
    requires StartsWith(url, "http")
    ensures var o := UploadedRecord(form, original, price, nextDue, Some(url));
            var r := DirectRecord(LoadedForm(o, priceText), Some(o), price, nextDue2);
            && !NeedsUpload(LoadedForm(o, priceText))
            && o.iconKey == "" && r.iconKey == PlaceholderIconKey
            && r.iconUri == o.iconUri == Some(url)
            && SubscriptionListScreen.CardIcon(r) == SubscriptionListScreen.CardIcon(o)
                 == SubscriptionListScreen.Image(url)
            && r != o.(nextDueDate := nextDue2)
  {
    var o := UploadedRecord(form, original, price, nextDue, Some(url));
    assert IsBlank(o.iconKey);
  }

  /** What the list card shows for a record saved after an upload. */
  lemma UploadedCardIcon(form: Form, original: Option<Subscription>, price: real, nextDue: int,
                         uploadedUrl: Option<string>)
    ensures var r := UploadedRecord(form, original, price, nextDue, uploadedUrl);
            SubscriptionListScreen.CardIcon(r) ==
              match uploadedUrl
              case Some(url) =>
                if StartsWith(url, "http") then SubscriptionListScreen.Image(url)
                else SubscriptionListScreen.Glyph("")
              case None => SubscriptionListScreen.Glyph(Take(SavedIconKey(form.iconKey), 2))
  {
  }

  // ----- The colour picker -----

  /** `gradient.hex == selectedColorHex`. */
  predicate IsSelected(g: GradientInfo, selectedColorHex: Option<string>): (b: bool)
    ensures selectedColorHex.None? ==> !b
    ensures b <==> Matches(g, selectedColorHex)
  {
    Some(g.hex) == selectedColorHex
  }

  /**
   * At most one swatch is marked, and the marked swatch's brush is the one
   * the list card draws for that key.
   */
  lemma SelectedSwatch(selectedColorHex: Option<string>, i: nat, j: nat)
    requires i < |PredefinedGradients| && j < |PredefinedGradients|
    requires IsSelected(PredefinedGradients[i], selectedColorHex)
    ensures IsSelected(PredefinedGradients[j], selectedColorHex) <==> i == j
    ensures GetBrushByHex(selectedColorHex) == PredefinedGradients[i].brush
  {
    HexKeysDistinct();
    LookupListed(i);
  }

  // ----- The screen's state and its save button -----

  /** What a click on the save button does. */
  datatype SaveClick = Ignored | UploadStarted(uri: string) | Saved(sub: Subscription)

  /**
   * The remembered state of one add/edit screen: the form fields, the
   * `uploading` flag, and the next-due date the pending upload callback
   * captured.
   */
  class Editor {
    const original: Option<Subscription>
    var name: string
    var price: string
    var startDate: int
    var cycle: CycleType
    var iconKey: string
    var iconUri: Option<string>
    var colorHex: Option<string>
    var uploading: bool
    var pendingNextDue: int

    function Current(): Form
      reads this
    {
      Form(name, price, startDate, cycle, iconKey, iconUri, colorHex)
    }

    constructor (original: Option<Subscription>, clock: int)
      ensures this.original == original
      ensures Current() == InitialForm(clock)
      ensures !uploading
    {
      this.original := original;
      var f := InitialForm(clock);
      name, price, startDate, cycle := f.name, f.price, f.startDate, f.cycle;
      iconKey, iconUri, colorHex := f.iconKey, f.iconUri, f.colorHex;
      uploading, pendingNextDue := false, clock;
    }

    /** `LaunchedEffect(original)`; `priceText` is `original.price.toString()`. */
    method Load(priceText: string)
      modifies this
      ensures Current() == if original.Some? then LoadedForm(original.value, priceText) else old(Current())
      ensures uploading == old(uploading) && pendingNextDue == old(pendingNextDue)
    {
      if original.Some? {
        var f := LoadedForm(original.value, priceText);
        name, price, startDate, cycle := f.name, f.price, f.startDate, f.cycle;
        iconKey, iconUri, colorHex := f.iconKey, f.iconUri, f.colorHex;
      }
    }

    /** The price field's `onValueChange`. */
    method EditPrice(input: string)
      modifies this`price
      ensures price == FilterPrice(input)
    {
      price := FilterPrice(input);
    }

    /** The icon field's `onValueChange`. */
    method EditIconKey(input: string)
      modifies this`iconKey
      ensures iconKey == FilterIconKey(input)
    {
      iconKey := FilterIconKey(input);
    }

    /**
     * The save button's `onClick` (ignored while the button is disabled
     * during an upload); `parsePrice` is `toDoubleOrNull() ?: 0.0`. A local
     * image starts an upload and leaves `uploading` set; otherwise the
     * record is saved at once.
     */
    method Save(now: int, cal: Calendar, parsePrice: string -> real) returns (click: SaveClick)
      requires Advances(cal)
      modifies this`uploading, this`pendingNextDue
      ensures old(uploading) ==> click == Ignored && uploading && pendingNextDue == old(pendingNextDue)
      ensures !old(uploading) && NeedsUpload(Current()) ==>
                && click == UploadStarted(iconUri.value)
                && uploading
                && pendingNextDue == NextAtOrAfter(cal, cycle, startDate, now)
      ensures !old(uploading) && !NeedsUpload(Current()) ==>
                && click == Saved(DirectRecord(Current(), original, parsePrice(price),
                                               NextAtOrAfter(cal, cycle, startDate, now)))
                && !uploading
                && pendingNextDue == old(pendingNextDue)
    {
      if uploading {
        return Ignored;
      }
      uploading := true;
      var nextDue := SaveNextDue(startDate, cycle, now, cal);
      if NeedsUpload(Current()) {
        pendingNextDue := nextDue;
        click := UploadStarted(iconUri.value);
      } else {
        var sub := DirectRecord(Current(), original, parsePrice(price), nextDue);
        uploading := false;
        click := Saved(sub);
      }
    }

    /**
     * The upload's completion callback: the record is built from the fields
     * as they are when the upload ends, with the next-due date from the click.
     */
    method UploadFinished(uploadedUrl: Option<string>, parsePrice: string -> real) returns (sub: Subscription)
      requires uploading
      modifies this`uploading
      ensures !uploading
      ensures sub == UploadedRecord(Current(), original, parsePrice(price), pendingNextDue, uploadedUrl)
    {
      sub := UploadedRecord(Current(), original, parsePrice(price), pendingNextDue, uploadedUrl);
      uploading := false;
    }
  }
}

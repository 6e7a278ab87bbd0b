/**
 * The submit handler: validate, build the record from the trimmed inputs and
 * the chosen category, persist it, and reload the card stack.
 */
module App {
  import opened Wrappers
  import opened Text
  import opened Validation
  import opened Storage
  import opened Cards

  /** The record the submit handler builds: the four trimmed inputs and the chosen category. */
  function RecordOf(v: FormValues, category: string): (r: Record)
    ensures Tight(r.imageUrl) && Tight(r.fullName) && Tight(r.homeTown) && Tight(r.purpose)
    ensures r.category == category
  {
    Record(Trim(v.imageUrl), Trim(v.fullName), Trim(v.homeTown), Trim(v.purpose), category)
  }

  /** A record whose four text fields would pass validation if typed into the form again. */
  predicate RecordValid(r: Record, urlOk: string -> bool)
  {
    FormValid(FormValues(r.imageUrl, r.fullName, r.homeTown, r.purpose), urlOk)
  }

  ghost predicate AllValid(records: seq<Record>, urlOk: string -> bool)
  {
    forall i :: 0 <= i < |records| ==> RecordValid(records[i], urlOk)
  }

  /**
   * The record built from the form is valid exactly when the form was: since
   * trimming is idempotent, checking the stored fields again gives the same verdict.
   */
  lemma SubmittedRecordValid(v: FormValues, category: string, urlOk: string -> bool)
    ensures RecordValid(RecordOf(v, category), urlOk) <==> FormValid(v, urlOk)
  {
    FieldErrorOfTrimmed(ImageUrl, v.imageUrl, urlOk);
    FieldErrorOfTrimmed(FullName, v.fullName, urlOk);
    FieldErrorOfTrimmed(HomeTown, v.homeTown, urlOk);
    FieldErrorOfTrimmed(Purpose, v.purpose, urlOk);
  }

  /** Saving the record of a valid form keeps every stored record valid. */
  lemma SaveKeepsValid(records: seq<Record>, v: FormValues, category: string, urlOk: string -> bool)
    requires FormValid(v, urlOk)
    ensures AllValid(records, urlOk) ==> AllValid(records + [RecordOf(v, category)], urlOk)
  {
    var r := RecordOf(v, category);
    SubmittedRecordValid(v, category, urlOk);
    if AllValid(records, urlOk) {
      forall i | 0 <= i < |records + [r]|
        ensures RecordValid((records + [r])[i], urlOk)
      {
        if i < |records| {
          assert (records + [r])[i] == records[i];
        }
      }
    }
  }

  /**
   * The form's submit event: runs `validateForm`; when it passes, saves the
   * record, empties the inputs and reloads the deck so that the new record is
   * in front; when it fails, the store and the deck are untouched and the
   * inputs show their errors.
   */
  method Submit(form: Form, store: TaskStore, deck: Deck, category: string, urlOk: string -> bool)
    returns (saved: bool)
    requires form.Valid()
    requires deck.Valid()
    modifies form`createDisabled, form.imageUrl, form.fullName, form.homeTown, form.purpose, store, deck
    ensures saved == FormValid(old(form.Values()), urlOk)
    ensures form.createDisabled == !saved
    ensures !saved ==> form.Values() == old(form.Values()) && form.Displays(urlOk)
    ensures saved ==> form.Values() == FormValues("", "", "", "")
    ensures saved ==> form.Marks() == [(None, false), (None, false), (None, false), (None, false)]
    ensures saved ==> store.Load() == old(store.Load()) + [RecordOf(old(form.Values()), category)]
    ensures saved ==> deck.Valid() && deck.allTasks == store.Load() && deck.currentIndex == |deck.allTasks| - 1
    ensures saved ==> deck.cards[0].task == RecordOf(old(form.Values()), category) && deck.cards[0].shadow
    ensures !saved ==> store.stored == old(store.stored)
    ensures !saved ==>
      deck.allTasks == old(deck.allTasks) && deck.currentIndex == old(deck.currentIndex) && deck.cards == old(deck.cards)
    ensures AllValid(old(store.Load()), urlOk) ==> AllValid(store.Load(), urlOk)
  {
    ghost var before := store.Load();
    saved := form.ValidateForm(urlOk);
    if saved {
      var formData := RecordOf(form.Values(), category);
      store.Save(formData);
      assert store.Load() == before + [formData];
      SaveKeepsValid(before, form.Values(), category, urlOk);
      form.Reset();
      deck.LoadTasksAndRender(store);
      NewestInFront(deck.allTasks);
    }
  }
}

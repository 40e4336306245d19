/** The favorite button on a listing card: two flags, an optimistic flip on
    click, a persist call carrying the pre-click value, and the status check
    that runs when the card mounts. */
module FavoriteToggle {
  import opened Text

  /** The unique-violation code the insert returns when the row already exists. */
  const DuplicateKey: string := "23505"
  /** The "no rows" code the status query may return. */
  const NoRows: string := "PGRST116"
  const LoginPrompt: string := "Please log in to save listings"
  const PersistFailed: string := "Failed to update favorite"

  /** The answer to the favorites write: success, a returned error with its
      code, or a thrown error. */
  datatype PersistOutcome = PersistOk | PersistError(code: string) | PersistThrew

  /** The answer to the status query; with an error no row comes back. */
  datatype StatusResult = Row(exists_: bool) | QueryError(code: string) | QueryThrew

  /** The favorites write a persist issues. */
  datatype Write = NoWrite | DeleteRow | InsertRow

  class ListingCard {
    var isFavorited: bool
    var isLoading: bool

    constructor ()
      ensures !isFavorited && !isLoading
    {
      isFavorited, isLoading := false, false;
    }

    /** `checkFavoriteStatus`: with a user and a listing, the flag becomes
        "the row exists"; an error other than "no rows", or a thrown error,
        leaves it alone. */
    method CheckStatus(ready: bool, result: StatusResult)
      modifies this`isFavorited
      ensures !ready ==> isFavorited == old(isFavorited)
      ensures ready && result.Row? ==> isFavorited == result.exists_
      ensures ready && result.QueryError? ==> isFavorited == (if result.code == NoRows then false else old(isFavorited))
      ensures ready && result.QueryThrew? ==> isFavorited == old(isFavorited)
    {
      if !ready {
        return;
      }
      match result {
        case Row(e) => isFavorited := e;
        case QueryError(code) =>
          if code == NoRows {
            isFavorited := false;
          }
        case QueryThrew =>
      }
    }

    /** `handleToggleFavorite`: without a user a prompt is shown and nothing
        changes; while loading the click is ignored; otherwise the card starts
        loading, flips the flag and schedules a persist carrying the value
        before the click. */
    method Click(signedIn: bool) returns (scheduled: Option<bool>, toast: Option<string>)
      modifies this
      ensures !signedIn ==> scheduled.None? && toast == Some(LoginPrompt)
      ensures signedIn ==> toast.None?
      ensures !signedIn || old(isLoading) ==> isFavorited == old(isFavorited) && isLoading == old(isLoading) && scheduled.None?
      ensures signedIn && !old(isLoading) ==>
        isLoading && isFavorited == !old(isFavorited) && scheduled == Some(old(isFavorited))
    {
      scheduled, toast := None, None;
      if !signedIn {
        toast := Some(LoginPrompt);
        return;
      }
      if isLoading {
        return;
      }
      isLoading := true;
      var current := isFavorited;
      isFavorited := !current;
      scheduled := Some(current);
    }

    /** `toggleFavorite(current)`: `ready` says whether a user and a listing
        are present when it runs. Without them the flag is cleared and
        loading is left as it is. Otherwise a favorited listing is deleted
        and any other is inserted; a duplicate insert counts as favorited,
        and any other failure sets the flag to `!current`, the value the
        click already showed, so the click is not undone. Loading ends in
        every case that reaches the write. */
    method Persist(current: bool, ready: bool, outcome: PersistOutcome) returns (write: Write, toast: Option<string>)
      modifies this
      ensures !ready ==> write == NoWrite && toast == Some(LoginPrompt) && !isFavorited && isLoading == old(isLoading)
      ensures ready ==> !isLoading && write == (if current then DeleteRow else InsertRow)
      ensures ready && outcome.PersistOk? ==> isFavorited == old(isFavorited) && toast.None?
      ensures ready && !current && outcome == PersistError(DuplicateKey) ==> isFavorited && toast.None?
      ensures ready && !outcome.PersistOk? && !(!current && outcome == PersistError(DuplicateKey)) ==>
        isFavorited == !current && toast == Some(PersistFailed)
    {
      toast := None;
      if !ready {
        toast := Some(LoginPrompt);
        isFavorited := false;
        return NoWrite, toast;
      }
      var failed := false;
      if current {
        write := DeleteRow;
        if !outcome.PersistOk? {
          failed := true;
        }
      } else {
        write := InsertRow;
        if outcome.PersistError? && outcome.code == DuplicateKey {
          isFavorited := true;
          isLoading := false;
          return;
        }
        if !outcome.PersistOk? {
          failed := true;
        }
      }
      if failed {
        toast := Some(PersistFailed);
        isFavorited := !current;
      }
      isLoading := false;
    }
  }

  /** A click followed by the persist it scheduled leaves the card idle and
      showing the opposite of what it showed before the click, whatever the
      write's outcome; the click is never reverted. */
  method ClickThenPersist(card: ListingCard, outcome: PersistOutcome) returns (write: Write)
    requires !card.isLoading
    modifies card
    ensures !card.isLoading && card.isFavorited == !old(card.isFavorited)
    ensures write == (if old(card.isFavorited) then DeleteRow else InsertRow)
  {
    var scheduled, _ := card.Click(true);
    var toast;
    write, toast := card.Persist(scheduled.value, true, outcome);
  }

  /** A second click before the persist has finished changes nothing and
      schedules nothing. */
  method DoubleClick(card: ListingCard) returns (first: Option<bool>, second: Option<bool>)
    requires !card.isLoading
    modifies card
    ensures first == Some(old(card.isFavorited)) && second.None?
    ensures card.isLoading && card.isFavorited == !old(card.isFavorited)
  {
    var toast;
    first, toast := card.Click(true);
    second, toast := card.Click(true);
  }

  /** If the user is gone when the scheduled persist runs, the flag is
      cleared but the card stays loading, so later clicks are ignored. */
  method SignedOutBeforePersist(card: ListingCard, outcome: PersistOutcome) returns (later: Option<bool>)
    requires !card.isLoading
    modifies card
    ensures !card.isFavorited && card.isLoading && later.None?
  {
    var scheduled, _ := card.Click(true);
    var _, _ := card.Persist(scheduled.value, false, outcome);
    var toast;
    later, toast := card.Click(true);
  }
}

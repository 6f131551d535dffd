/**
 * The visit counter the site keeps in the visitor's own browser: one counter
 * per day under `portfolio_visits_<date>`, and a clean-up of visit keys older
 * than thirty days.
 */
module LocalVisits {
  import opened Common
  import opened Text
  import opened BrowserStorage

  const VisitPrefix := "portfolio_visits_"

  /** The storage key of a day's counter. */
  function VisitKey(day: int): string
  {
    VisitPrefix + DayText(day)
  }

  /** `parseInt(localStorage.getItem(key) || '0')` */
  function StoredVisits(items: map<string, string>, key: string): Num
  {
    ParseInt(OrElse(Lookup(items, key), "0"))
  }

  /** A day without a stored counter reads as 0 visits. */
  lemma MissingDayIsZero(items: map<string, string>, key: string)
    requires key !in items
    ensures StoredVisits(items, key) == Finite(0)
  {
    ParseIntText(0);
  }

  /**
   * The clean-up test: a visit key whose date parses and lies before `cutoff`
   * (an instant in milliseconds). An unparsable date compares false.
   */
  predicate IsStale(key: string, cutoff: int): (stale: bool)
    ensures stale ==> VisitPrefix <= key && ParseDay(key[|VisitPrefix|..]).Some?
    ensures !(VisitPrefix <= key) ==> !stale
  {
    VisitPrefix <= key &&
    match ParseDay(key[|VisitPrefix|..])
    case Some(day) => day * DayMillis < cutoff
    case None => false
  }

  /** A day's counter key is stale exactly when the day starts before the cutoff. */
  lemma VisitKeyStale(day: int, cutoff: int)
    ensures IsStale(VisitKey(day), cutoff) <==> day * DayMillis < cutoff
  {
    assert VisitKey(day)[|VisitPrefix|..] == DayText(day);
    ParseDayText(day);
  }

  /** The counter of any day from 29 days ago onwards survives the clean-up. */
  lemma RecentDayNotStale(day: int, nowMs: nat)
    requires DayOf(nowMs) - 29 <= day
    ensures !IsStale(VisitKey(day), nowMs - 30 * DayMillis)
  {
    VisitKeyStale(day, nowMs - 30 * DayMillis);
    var today := DayOf(nowMs);
    assert nowMs < (today + 1) * DayMillis;
    assert day * DayMillis >= (today - 29) * DayMillis;
  }

  /**
   * `trackLocalVisit`: adds one to today's counter, then walks the keys by
   * index and removes stale visit keys. Any storage failure is swallowed.
   */
  method TrackLocalVisit(storage: Storage, nowMs: nat)
    requires storage.Valid()
    modifies storage
    ensures storage.Valid()
    ensures !storage.available ==> storage.keys == old(storage.keys) && storage.items == old(storage.items)
    ensures storage.available ==>
      var key := VisitKey(DayOf(nowMs));
      key in storage.items && storage.items[key] == NumText(StoredVisits(old(storage.items), key).PlusOne())
    ensures forall k :: k in storage.items && k != VisitKey(DayOf(nowMs)) ==>
      k in old(storage.items) && storage.items[k] == old(storage.items)[k]
    ensures forall k :: k in old(storage.items) && k !in storage.items ==> IsStale(k, nowMs - 30 * DayMillis)
  {
    if !storage.available {
      return;
    }
    var today := DayOf(nowMs);
    var visitKey := VisitKey(today);
    var stored := storage.GetItem(visitKey);
    var currentVisits := ParseInt(OrElse(stored, "0"));
    storage.SetItem(visitKey, NumText(currentVisits.PlusOne()));
    ghost var afterSet := storage.items;

    var thirtyDaysAgo := nowMs - 30 * DayMillis;
    RecentDayNotStale(today, nowMs);
    var i := 0;
    while i < storage.Length()
      invariant 0 <= i
      invariant storage.Valid()
      invariant forall k :: k in storage.items ==> k in afterSet && storage.items[k] == afterSet[k]
      invariant forall k :: k in afterSet && k !in storage.items ==> IsStale(k, thirtyDaysAgo)
      decreases storage.Length() - i
    {
      var key := storage.Key(i);
      if key.Some? && VisitPrefix <= key.value {
        var dateStr := key.value[|VisitPrefix|..];
        var date := ParseDay(dateStr);
        if date.Some? && date.value * DayMillis < thirtyDaysAgo {
          storage.RemoveItem(key.value);
        }
      }
      i := i + 1;
    }
  }
}

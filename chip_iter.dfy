/**
 * `gpiod.chip_iter` and its handles. Both advancing methods use the
 * library's non-closing advance, so a chip handed out earlier stays open
 * whichever method the caller uses; `close` frees the iterator without
 * closing chips.
 */
module ChipIters {
  import opened Wrappers
  import opened Libgpiod
  import opened Chips

  class ChipIter {
    var iter: Option<IterRef>

    constructor (it: Option<IterRef>)
      ensures iter == it
    {
      iter := it;
    }

    /** `iter:next_noclose()`: nil once the iterator is closed, or when the
        library has no further chip (`found` is what
        gpiod_chip_iter_next_noclose returns). */
    method NextNoclose(lib: Library, found: Option<ChipRef>) returns (r: Option<Chip>)
      modifies lib
      ensures iter.None? ==> r.None? && lib.trace == old(lib.trace)
      ensures iter.Some? ==> lib.trace == old(lib.trace) + [ChipIterNextNoclose(iter.value)]
      ensures iter.Some? ==> (r.Some? <==> found.Some?)
      ensures r.Some? ==> fresh(r.value) && r.value.chip == found
    {
      if iter.None? { return None; }
      lib.Record(ChipIterNextNoclose(iter.value));
      if found.None? { return None; }
      var chip := new Chip(found);
      return Some(chip);
    }

    /** `iter:next()`: the same library call and the same result as
        `next_noclose`. */
    method Next(lib: Library, found: Option<ChipRef>) returns (r: Option<Chip>)
      modifies lib
      ensures iter.None? ==> r.None? && lib.trace == old(lib.trace)
      ensures iter.Some? ==> lib.trace == old(lib.trace) + [ChipIterNextNoclose(iter.value)]
      ensures iter.Some? ==> (r.Some? <==> found.Some?)
      ensures r.Some? ==> fresh(r.value) && r.value.chip == found
    {
      r := NextNoclose(lib, found);
    }

    /** `iter:close()` (also `__gc`): frees the iterator once, without
        closing the chips it produced; a closed iterator is left as it is. */
    method Close(lib: Library)
      modifies this, lib
      ensures iter.None?
      ensures old(iter).Some? ==> lib.trace == old(lib.trace) + [ChipIterFreeNoclose(old(iter).value)]
      ensures old(iter).None? ==> lib.trace == old(lib.trace)
    {
      if iter.Some? {
        lib.Record(ChipIterFreeNoclose(iter.value));
        iter := None;
      }
    }
  }

  /** `gpiod.chip_iter()`: nil when the library cannot make an iterator
      (`created` is what gpiod_chip_iter_new returns). */
  method NewChipIter(lib: Library, created: Option<IterRef>) returns (r: Option<ChipIter>)
    modifies lib
    ensures lib.trace == old(lib.trace) + [ChipIterNew]
    ensures r.Some? <==> created.Some?
    ensures r.Some? ==> fresh(r.value) && r.value.iter == created
  {
    var it := new ChipIter(None);
    lib.Record(ChipIterNew);
    it.iter := created;
    if it.iter.None? { return None; }
    return Some(it);
  }
}

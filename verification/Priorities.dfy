/** Task priorities, and the item value that sorts an event list by them. */
module Priorities {

  const MAX_PRIORITIES: nat := 7      // configMAX_PRIORITIES

  /** listSET_LIST_ITEM_VALUE of an event list item, with so many priorities: the higher the
      priority, the smaller. */
  function KeyUnder(max: nat, prio: nat): nat {
    if prio <= max then max - prio else 0
  }

  function Key(prio: nat): nat {
    KeyUnder(MAX_PRIORITIES, prio)
  }
}

/**
 * The component ID card registry: the gate that validates a card on top of
 * the operand stack, the keyed insert of valid cards (evicting the entity of
 * an earlier card with the same inbox), and the derived persistence file name.
 *
 * The host's path functions are parameters: `canon` stands for
 * canonical_inbox_key (normcase of abspath) and `isAbs` for os.path.isabs.
 */
module ComponentRegistry {
  import opened Wrappers
  import opened Values
  import opened Text
  import Mem
  import opened EcsWorld
  import opened Collections

  // ---------------------------------------------------------------------
  // validate_card
  // ---------------------------------------------------------------------

  /** The rejection reasons, in the order the checks run. */
  const Reasons: seq<string> := [
    "card is not a dict",
    "schema_version must equal 1",
    "inbox must be a non-empty string",
    "inbox must be an absolute path",
    "outbox must be a non-empty string",
    "outbox must be an absolute path",
    "title must be a string",
    "channels must be a dict",
    "channels.in must be a list",
    "channels.in entries must be strings",
    "channels.in contains duplicate names",
    "channels.out must be a list",
    "channels.out entries must be strings",
    "channels.out contains duplicate names"]

  predicate AllStrings(items: seq<Value>) {
    forall i :: 0 <= i < |items| ==> items[i].VStr?
  }

  /** No two entries are equal. */
  predicate Distinct(items: seq<Value>) {
    forall i, j :: 0 <= i < j < |items| ==> items[i] != items[j]
  }

  /** The number of different values in a list, `len(set(items))`. */
  function DistinctCount(items: seq<Value>): nat {
    |set v | v in items|
  }

  /** A value is absolute when it is a string the host calls absolute. */
  predicate AbsoluteString(v: Value, isAbs: string -> bool) {
    v.VStr? && isAbs(v.s)
  }

  /**
   * Check i on its own, evaluated on the whole card whether or not an
   * earlier one failed; check i goes with Reasons[i].
   */
  predicate Check(i: int, card: Value, isAbs: string -> bool) {
    var inbox, outbox, channels := Get(card, "inbox"), Get(card, "outbox"), Get(card, "channels");
    var chIn, chOut := Get(channels, "in"), Get(channels, "out");
    if i == 0 then card.VDict?
    else if i == 1 then EqualsOne(Get(card, "schema_version"))
    else if i == 2 then IsNonEmptyString(inbox)
    else if i == 3 then AbsoluteString(inbox, isAbs)
    else if i == 4 then IsNonEmptyString(outbox)
    else if i == 5 then AbsoluteString(outbox, isAbs)
    else if i == 6 then Get(card, "title").VStr?
    else if i == 7 then channels.VDict?
    else if i == 8 then chIn.VList?
    else if i == 9 then chIn.VList? && AllStrings(chIn.items)
    else if i == 10 then chIn.VList? && Distinct(chIn.items)
    else if i == 11 then chOut.VList?
    else if i == 12 then chOut.VList? && AllStrings(chOut.items)
    else chOut.VList? && Distinct(chOut.items)
  }

  /** Check i fails and every check before it passes. */
  predicate FailsFirstAt(i: int, card: Value, isAbs: string -> bool) {
    0 <= i < |Reasons| && !Check(i, card, isAbs) && forall j :: 0 <= j < i ==> Check(j, card, isAbs)
  }

  /** Prepending a value that does not occur keeps a list's entries distinct, and only then. */
  lemma DistinctCons(items: seq<Value>)
    requires items != [] && items[0] !in items[1..]
    ensures Distinct(items) <==> Distinct(items[1..])
  {
    var rest := items[1..];
    if Distinct(rest) {
      forall i, j | 0 <= i < j < |items|
        ensures items[i] != items[j]
      {
        assert items[j] == rest[j - 1];
        if i > 0 {
          assert items[i] == rest[i - 1];
        }
      }
    } else {
      var i, j :| 0 <= i < j < |rest| && rest[i] == rest[j];
      assert items[i + 1] == items[j + 1];
    }
  }

  /** The set of a list's values has the list's length exactly when the entries are distinct. */
  lemma {:induction false} DistinctCountIsLength(items: seq<Value>)
    ensures DistinctCount(items) <= |items|
    ensures DistinctCount(items) == |items| <==> Distinct(items)
  {
    if items != [] {
      var rest := items[1..];
      DistinctCountIsLength(rest);
      var s, t := set v | v in items, set v | v in rest;
      assert s == t + {items[0]};
      if items[0] in rest {
        assert s == t;
        var k :| 0 <= k < |rest| && rest[k] == items[0];
        assert items[0] == items[k + 1];
      } else {
        assert |s| == |t| + 1;
        DistinctCons(items);
      }
    }
  }

  /**
   * The shared tail of validate_card for channels.in and channels.out: not a
   * list, then a non-string entry, then a duplicate, each with its reason.
   */
  function ValidateChannelList(v: Value, notList: string, notStrings: string, duplicates: string): (r: Outcome<string>)
    ensures r == if !v.VList? then Fail(notList)
                 else if !AllStrings(v.items) then Fail(notStrings)
                 else if !Distinct(v.items) then Fail(duplicates)
                 else Pass
  {
    if !v.VList? then Fail(notList)
    else if !AllStrings(v.items) then Fail(notStrings)
    else
      DistinctCountIsLength(v.items);
      if |v.items| != DistinctCount(v.items) then Fail(duplicates)
      else Pass
  }

  /**
   * validate_card on the card value: the source's chain of early returns.  A
   * rejection carries one of the fourteen reasons; an accepted card has the
   * non-empty absolute inbox that ingest_card keys it by.
   */
  function ValidateCard(card: Value, isAbs: string -> bool): (r: Outcome<string>)
    ensures r.Fail? ==> r.error in Reasons
    ensures r == Pass ==>
      card.VDict? && "inbox" in card.fields && IsNonEmptyString(card.fields["inbox"]) && isAbs(card.fields["inbox"].s)
  {
    if !card.VDict? then Fail(Reasons[0])
    else if !EqualsOne(Get(card, "schema_version")) then Fail(Reasons[1])
    else
      var inbox := Get(card, "inbox");
      if !IsNonEmptyString(inbox) then Fail(Reasons[2])
      else if !isAbs(inbox.s) then Fail(Reasons[3])
      else
        var outbox := Get(card, "outbox");
        if !IsNonEmptyString(outbox) then Fail(Reasons[4])
        else if !isAbs(outbox.s) then Fail(Reasons[5])
        else if "title" !in card.fields || !card.fields["title"].VStr? then Fail(Reasons[6])
        else
          var channels := Get(card, "channels");
          if !channels.VDict? then Fail(Reasons[7])
          else
            var chIn := ValidateChannelList(Get(channels, "in"), Reasons[8], Reasons[9], Reasons[10]);
            if chIn.Fail? then chIn
            else ValidateChannelList(Get(channels, "out"), Reasons[11], Reasons[12], Reasons[13])
  }

  /** validate_card passes exactly when every check passes. */
  lemma ValidateCardPasses(card: Value, isAbs: string -> bool)
    ensures ValidateCard(card, isAbs) == Pass <==> forall i :: 0 <= i < |Reasons| ==> Check(i, card, isAbs)
  {
    if forall i :: 0 <= i < |Reasons| ==> Check(i, card, isAbs) {
      assert Check(0, card, isAbs) && Check(1, card, isAbs) && Check(2, card, isAbs) && Check(3, card, isAbs);
      assert Check(4, card, isAbs) && Check(5, card, isAbs) && Check(6, card, isAbs) && Check(7, card, isAbs);
      assert Check(8, card, isAbs) && Check(9, card, isAbs) && Check(10, card, isAbs);
      assert Check(11, card, isAbs) && Check(12, card, isAbs) && Check(13, card, isAbs);
    }
  }

  /** A card that fails is rejected with the reason of the first check that fails. */
  lemma ValidateCardFirstFailure(card: Value, isAbs: string -> bool)
    requires ValidateCard(card, isAbs).Fail?
    ensures exists i :: FailsFirstAt(i, card, isAbs) && ValidateCard(card, isAbs).error == Reasons[i]
  {
    var r := ValidateCard(card, isAbs);
    var k := if !Check(0, card, isAbs) then 0 else if !Check(1, card, isAbs) then 1
      else if !Check(2, card, isAbs) then 2 else if !Check(3, card, isAbs) then 3
      else if !Check(4, card, isAbs) then 4 else if !Check(5, card, isAbs) then 5
      else if !Check(6, card, isAbs) then 6 else if !Check(7, card, isAbs) then 7
      else if !Check(8, card, isAbs) then 8 else if !Check(9, card, isAbs) then 9
      else if !Check(10, card, isAbs) then 10 else if !Check(11, card, isAbs) then 11
      else if !Check(12, card, isAbs) then 12 else 13;
    assert FailsFirstAt(k, card, isAbs) && r.error == Reasons[k];
  }

  // ---------------------------------------------------------------------
  // _persist_filename
  // ---------------------------------------------------------------------

  predicate IsUnsafe(c: char) {
    c == '\\' || c == '/' || c == ':'
  }

  /** The key with backslash, slash and colon each replaced by '_', then ".json". */
  function PersistFilename(key: string): (name: string)
    ensures |name| == |key| + 5 && name[|key|..] == ".json"
    ensures forall i :: 0 <= i < |key| ==> !IsUnsafe(name[i])
    ensures forall i :: 0 <= i < |key| ==> name[i] == if IsUnsafe(key[i]) then '_' else key[i]
  {
    ReplaceChar(ReplaceChar(ReplaceChar(key, '\\', '_'), '/', '_'), ':', '_') + ".json"
  }

  // ---------------------------------------------------------------------
  // find_entity_by_inbox
  // ---------------------------------------------------------------------

  /** What makes the registry raise instead of answering. */
  datatype RegistryError =
    | EmptyStack           // IndexError: no card on the operand stack
    | BadCardRef(eid: int) // a card reference without a string inbox

  /** The canonical inbox key of a card reference, or None when `card["inbox"]` is missing or not a string. */
  function CardInboxKey(card: Card, canon: string -> string): Option<string> {
    if "inbox" in card && card["inbox"].VStr? then Some(canon(card["inbox"].s)) else None
  }

  /**
   * Looks through the card references for one whose canonical inbox key is
   * `key`.  The references are visited in no particular order.
   */
  method FindEntityByInbox(w: Ecs, key: string, canon: string -> string) returns (r: Result<Option<int>, RegistryError>)
    ensures r.Ok? && r.value.Some? ==>
      r.value.value in w.cardRef && CardInboxKey(w.cardRef[r.value.value], canon) == Some(key)
    ensures r == Ok(None) ==>
      forall e :: e in w.cardRef ==> CardInboxKey(w.cardRef[e], canon).Some? &&
                                     CardInboxKey(w.cardRef[e], canon) != Some(key)
    ensures r.Err? ==>
      r.error.BadCardRef? && r.error.eid in w.cardRef && CardInboxKey(w.cardRef[r.error.eid], canon) == None
  {
    var remaining := w.cardRef.Keys;
    while remaining != {}
      invariant remaining <= w.cardRef.Keys
      invariant forall e :: e in w.cardRef && e !in remaining ==>
        CardInboxKey(w.cardRef[e], canon).Some? && CardInboxKey(w.cardRef[e], canon) != Some(key)
      decreases |remaining|
    {
      HasMember(remaining);
      var eid :| eid in remaining;
      var k := CardInboxKey(w.cardRef[eid], canon);
      if k.None? {
        return Err(BadCardRef(eid));
      }
      if k.value == key {
        return Ok(Some(eid));
      }
      remaining := remaining - {eid};
    }
    r := Ok(None);
  }

  // ---------------------------------------------------------------------
  // The registry
  // ---------------------------------------------------------------------

  /** What ingest_card returns: (True, key), (False, reason), or an exception. */
  datatype IngestResult =
    | Ingested(key: string)
    | Rejected(reason: string)
    | Raised(error: RegistryError)

  /** The module-level dict loaded_component_id_cards, keyed by canonical inbox. */
  class Registry {
    var loaded: map<string, Value>

    constructor ()
      ensures loaded == map[]
    {
      loaded := map[];
    }

    /**
     * validate_card on the card on top of the operand stack.  The stack is
     * read, never changed.
     */
    method ValidateTop(st: Mem.OperandStack, isAbs: string -> bool) returns (r: Result<Outcome<string>, RegistryError>)
      ensures st.stack == [] ==> r == Err(EmptyStack)
      ensures st.stack != [] ==> r == Ok(ValidateCard(st.stack[|st.stack| - 1], isAbs))
    {
      var top := st.Top();
      if top.Err? {
        return Err(EmptyStack);
      }
      r := Ok(ValidateCard(top.value, isAbs));
    }

    /**
     * Validates the top card and, when it passes, stores it under its
     * canonical inbox key, first removing from the entity tables an entity
     * whose card has that key.  The card stays on the stack.
     */
    method IngestCard(st: Mem.OperandStack, w: Ecs, canon: string -> string, isAbs: string -> bool)
      returns (r: IngestResult)
      modifies this, w
      ensures st.stack == old(st.stack)
      ensures st.stack == [] ==> r == Raised(EmptyStack)
      ensures !r.Ingested? ==> loaded == old(loaded) && w.State() == old(w.State())
      ensures st.stack != [] ==>
        var card := st.stack[|st.stack| - 1];
        match ValidateCard(card, isAbs)
        case Fail(reason) => r == Rejected(reason)
        case Pass =>
          var key := canon(card.fields["inbox"].s);
          !r.Rejected? &&
          (r.Raised? ==>
            r.error.BadCardRef? && r.error.eid in old(w.cardRef) &&
            CardInboxKey(old(w.cardRef)[r.error.eid], canon) == None) &&
          ((forall e :: e in old(w.cardRef) ==> CardInboxKey(old(w.cardRef)[e], canon).Some?) ==> r.Ingested?) &&
          (r.Ingested? ==>
            r.key == key && loaded == old(loaded)[key := card] &&
            ((w.State() == old(w.State()) &&
              forall e :: e in old(w.cardRef) ==> CardInboxKey(old(w.cardRef)[e], canon) != Some(key)) ||
             exists e :: e in old(w.cardRef) && CardInboxKey(old(w.cardRef)[e], canon) == Some(key) &&
                         w.State() == Removed(old(w.State()), e)))
    {
      var top := st.Top();
      if top.Err? {
        return Raised(EmptyStack);
      }
      var card := top.value;
      var v := ValidateCard(card, isAbs);
      if v.Fail? {
        return Rejected(v.error);
      }
      var key := canon(card.fields["inbox"].s);
      var found := FindEntityByInbox(w, key, canon);
      if found.Err? {
        return Raised(found.error);
      }
      if found.value.Some? {
        w.RemoveEntity(found.value.value);
      }
      loaded := loaded[key := card];
      r := Ingested(key);
    }

    method ClearRegistry()
      modifies this
      ensures loaded == map[]
    {
      loaded := map[];
    }
  }
}

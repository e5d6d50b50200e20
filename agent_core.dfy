/** The conversation state held by the procurement agent service
    (src/core/agent.core.ts): its configuration record and the status update
    the status tool triggers. The language-model wiring is not modelled. */
module AgentCore {
  import opened Wrappers
  import opened ConversationTypes

  /** The effect of `updateStatus(status, note)` on a configuration record: the
      status is always overwritten, the note only by a truthy note. */
  function ApplyUpdate(c: TestSchema, status: ConversationStatus, note: Option<string>): (r: TestSchema)
    ensures r.conversationStatus == status
    ensures Truthy(note) ==> r.note == note
    ensures !Truthy(note) ==> r.note == c.note
    ensures r.productId == c.productId && r.supplierId == c.supplierId && r.companyId == c.companyId
  {
    var withStatus := c.(conversationStatus := status);
    if Truthy(note) then withStatus.(note := note) else withStatus
  }

  /** Repeating an update changes nothing further. */
  lemma ApplyUpdateIdempotent(c: TestSchema, status: ConversationStatus, note: Option<string>)
    ensures ApplyUpdate(ApplyUpdate(c, status, note), status, note) == ApplyUpdate(c, status, note)
  {
  }

  /** One call `updateStatus(status, note)`. */
  datatype StatusUpdate = StatusUpdate(status: ConversationStatus, note: Option<string>)

  /** The record after the calls `us`, made in order, starting from `c`. */
  function ApplyAll(c: TestSchema, us: seq<StatusUpdate>): TestSchema
  {
    if us == [] then c
    else
      var last := us[|us| - 1];
      ApplyUpdate(ApplyAll(c, us[..|us| - 1]), last.status, last.note)
  }

  /** The last truthy note among `us`, or `fallback` when none is truthy. */
  function LastNote(us: seq<StatusUpdate>, fallback: Option<string>): Option<string>
  {
    if us == [] then fallback
    else if Truthy(us[|us| - 1].note) then us[|us| - 1].note
    else LastNote(us[..|us| - 1], fallback)
  }

  /** `LastNote` is the fallback when no note is truthy, and otherwise the note
      of the last update whose note is truthy. */
  lemma {:induction false} LastNoteIsLastTruthy(us: seq<StatusUpdate>, fallback: Option<string>)
    ensures (forall i :: 0 <= i < |us| ==> !Truthy(us[i].note)) ==> LastNote(us, fallback) == fallback
    ensures (exists i :: 0 <= i < |us| && Truthy(us[i].note)) ==>
      exists i :: 0 <= i < |us| && Truthy(us[i].note) && us[i].note == LastNote(us, fallback)
        && forall j :: i < j < |us| ==> !Truthy(us[j].note)
  {
    if us != [] {
      var n := |us| - 1;
      var init := us[..n];
      LastNoteIsLastTruthy(init, fallback);
      if Truthy(us[n].note) {
        assert Truthy(us[n].note) && us[n].note == LastNote(us, fallback);
      } else {
        assert forall i :: 0 <= i < n ==> init[i] == us[i];
        if exists i :: 0 <= i < |us| && Truthy(us[i].note) {
          var i :| 0 <= i < |init| && Truthy(init[i].note) && init[i].note == LastNote(init, fallback)
            && forall j :: i < j < |init| ==> !Truthy(init[j].note);
          assert us[i] == init[i];
        }
      }
    }
  }

  /** After a non-empty sequence of updates the status is the last one given, the
      note is the last truthy note given (or the original note if none was), and
      the ids are those of the original record. */
  lemma {:induction false} ApplyAllLast(c: TestSchema, us: seq<StatusUpdate>)
    requires us != []
    ensures ApplyAll(c, us).conversationStatus == us[|us| - 1].status
    ensures ApplyAll(c, us).note == LastNote(us, c.note)
    ensures ApplyAll(c, us).productId == c.productId
    ensures ApplyAll(c, us).supplierId == c.supplierId
    ensures ApplyAll(c, us).companyId == c.companyId
  {
    var init := us[..|us| - 1];
    if init != [] {
      ApplyAllLast(c, init);
    }
  }

  /** Applying `us` and then `vs` is applying `us + vs`. */
  lemma {:induction false} ApplyAllAppend(c: TestSchema, us: seq<StatusUpdate>, vs: seq<StatusUpdate>)
    ensures ApplyAll(ApplyAll(c, us), vs) == ApplyAll(c, us + vs)
  {
    if vs == [] {
      assert us + vs == us;
    } else {
      var n := |vs| - 1;
      assert (us + vs)[..|us + vs| - 1] == us + vs[..n];
      ApplyAllAppend(c, us, vs[..n]);
    }
  }

  /** A truthy note survives a following update whose note is absent or empty. */
  lemma NotePersists(c: TestSchema, s1: ConversationStatus, n: Option<string>,
                     s2: ConversationStatus, n2: Option<string>)
    requires Truthy(n) && !Truthy(n2)
    ensures ApplyAll(c, [StatusUpdate(s1, n), StatusUpdate(s2, n2)])
         == c.(conversationStatus := s2, note := n)
  {
    var us := [StatusUpdate(s1, n), StatusUpdate(s2, n2)];
    assert us[..1] == [StatusUpdate(s1, n)];
    assert us[..1][..0] == [];
    assert ApplyAll(c, us[..1]) == ApplyUpdate(c, s1, n);
  }

  /** `DeepProcurmentAgentService`: the mutable session configuration. */
  class DeepProcurmentAgentService {
    var config: TestSchema

    /** The service starts from the configuration it is given. */
    constructor (config: TestSchema)
      ensures this.config == config
    {
      this.config := config;
    }

    /** `getConfig`: a copy of the current configuration; nothing changes. */
    method GetConfig() returns (c: TestSchema)
      ensures c == config
    {
      c := config;
    }

    /** `updateStatus`: overwrites the status, overwrites the note only when the
        given note is truthy, and leaves the three ids as they were. */
    method UpdateStatus(status: ConversationStatus, note: Option<string>)
      modifies this
      ensures config == ApplyUpdate(old(config), status, note)
      ensures config.conversationStatus == status
      ensures config.note == if Truthy(note) then note else old(config.note)
      ensures config.productId == old(config.productId)
      ensures config.supplierId == old(config.supplierId)
      ensures config.companyId == old(config.companyId)
    {
      config := config.(conversationStatus := status);
      if Truthy(note) {
        config := config.(note := note);
      }
    }
  }
}

/** Fluent chaining: every setter returns the command itself, so a request
    parser writes `$command->setA(..)->setB(..)->...`. A chain is a sequence
    of setter calls run left to right on the same command; the first call
    that throws ends the chain with the command as the earlier calls left
    it. */
module FluentChain {
  import opened Wrappers
  import ValueObjects
  import opened ProductCommand

  /** True when no call of the chain throws. */
  predicate AllAccepted(rules: ValueObjects.Constraints, calls: seq<Setter>)
  {
    forall k :: 0 <= k < |calls| ==> Accepts(rules, calls[k])
  }

  /** True when no call of the chain writes field `f`. */
  predicate Untouched(calls: seq<Setter>, f: Field)
  {
    forall k :: 0 <= k < |calls| ==> FieldOf(calls[k]) != f
  }

  /** Runs the chain on `c`. Fields no call writes keep their value, the
      product id and shop constraint never change, and the chain throws
      exactly when one of its calls is rejected. */
  function ApplyAll(rules: ValueObjects.Constraints, c: UpdateProductCommand, calls: seq<Setter>): (r: Step)
    ensures r.command.productId == c.productId && r.command.shopConstraint == c.shopConstraint
    ensures forall f :: Untouched(calls, f) ==> Get(r.command, f) == Get(c, f)
    ensures AllAccepted(rules, calls) ==> r.thrown.None?
    ensures !AllAccepted(rules, calls) ==> r.thrown.Some?
    decreases |calls|
  {
    if |calls| == 0 then Step(c, None)
    else
      var before := ApplyAll(rules, c, calls[..|calls| - 1]);
      var last := calls[|calls| - 1];
      assert !AllAccepted(rules, calls) && AllAccepted(rules, calls[..|calls| - 1]) ==> !Accepts(rules, last);
      if before.thrown.Some? then before
      else
        var after := Apply(rules, before.command, last);
        SameExceptGetters(before.command, after.command, FieldOf(last));
        assert forall f :: Untouched(calls, f) ==> Untouched(calls[..|calls| - 1], f) && f != FieldOf(last);
        after
  }

  /** The value the last call of the chain writing `f` stores, or `initial`
      when no call writes `f`. */
  function LastWritten(rules: ValueObjects.Constraints, calls: seq<Setter>, f: Field, initial: Slot): Slot
    requires AllAccepted(rules, calls)
    decreases |calls|
  {
    if |calls| == 0 then initial
    else
      var last := calls[|calls| - 1];
      if FieldOf(last) == f then Built(rules, last).value
      else LastWritten(rules, calls[..|calls| - 1], f, initial)
  }

  /** Every getter returns what the last setter of its field stored, or
      what the command held before the chain. */
  lemma {:induction false} GetterReturnsLastWrite(rules: ValueObjects.Constraints, c: UpdateProductCommand, calls: seq<Setter>, f: Field)
    requires AllAccepted(rules, calls)
    ensures ApplyAll(rules, c, calls).thrown.None?
    ensures Get(ApplyAll(rules, c, calls).command, f) == LastWritten(rules, calls, f, Get(c, f))
    decreases |calls|
  {
    if |calls| > 0 {
      var prefix := calls[..|calls| - 1];
      assert AllAccepted(rules, prefix);
      GetterReturnsLastWrite(rules, c, prefix, f);
      var before := ApplyAll(rules, c, prefix);
      var last := calls[|calls| - 1];
      SameExceptGetters(before.command, Apply(rules, before.command, last).command, FieldOf(last));
    }
  }

  /** A chain whose first rejected call is `calls[k]` throws that call's
      exception and leaves the command as the accepted calls before it left
      it; the calls after it have no effect. */
  lemma {:induction false} FirstRejectionEndsChain(rules: ValueObjects.Constraints, c: UpdateProductCommand, calls: seq<Setter>, k: nat)
    requires k < |calls|
    requires AllAccepted(rules, calls[..k])
    requires !Accepts(rules, calls[k])
    ensures ApplyAll(rules, c, calls).thrown == Some(Built(rules, calls[k]).error)
    ensures ApplyAll(rules, c, calls).command == ApplyAll(rules, c, calls[..k]).command
    decreases |calls|
  {
    var prefix := calls[..|calls| - 1];
    if k < |calls| - 1 {
      assert prefix[k] == calls[k] && prefix[..k] == calls[..k];
      FirstRejectionEndsChain(rules, c, prefix, k);
    } else {
      assert prefix == calls[..k];
    }
  }

  /** After a chain whose first rejected call is `calls[k]`, every getter
      returns what the last accepted setter of its field before `calls[k]`
      stored, or what the command held before the chain. */
  lemma GetterAfterRejection(rules: ValueObjects.Constraints, c: UpdateProductCommand, calls: seq<Setter>, k: nat, f: Field)
    requires k < |calls|
    requires AllAccepted(rules, calls[..k])
    requires !Accepts(rules, calls[k])
    ensures ApplyAll(rules, c, calls).thrown == Some(Built(rules, calls[k]).error)
    ensures Get(ApplyAll(rules, c, calls).command, f) == LastWritten(rules, calls[..k], f, Get(c, f))
  {
    FirstRejectionEndsChain(rules, c, calls, k);
    GetterReturnsLastWrite(rules, c, calls[..k], f);
  }

  /** The flag of the last `setShowPrice` call of the chain, if any. */
  function LastShowPrice(calls: seq<Setter>): Option<bool>
    decreases |calls|
  {
    if |calls| == 0 then None
    else if calls[|calls| - 1].SetShowPrice? then Some(calls[|calls| - 1].showPrice)
    else LastShowPrice(calls[..|calls| - 1])
  }

  /** The flag of the last `setShowCondition` call of the chain, if any. */
  function LastShowCondition(calls: seq<Setter>): Option<bool>
    decreases |calls|
  {
    if |calls| == 0 then None
    else if calls[|calls| - 1].SetShowCondition? then Some(calls[|calls| - 1].showCondition)
    else LastShowCondition(calls[..|calls| - 1])
  }

  /** On a freshly constructed command, after a chain that does not throw,
      `showPrice()` and `showCondition()` return the flag last passed to
      their setter, or null when the chain never called it. */
  lemma {:induction false} ShowFlagsAreLastSet(rules: ValueObjects.Constraints, productId: int, shop: ShopConstraint, calls: seq<Setter>)
    requires New(rules, productId, shop).Success?
    requires AllAccepted(rules, calls)
    ensures var r := ApplyAll(rules, New(rules, productId, shop).value, calls);
      r.command.showPrice == LastShowPrice(calls) && r.command.showCondition == LastShowCondition(calls)
    decreases |calls|
  {
    var c := New(rules, productId, shop).value;
    assert IsUnset(Get(c, ShowPrice)) && IsUnset(Get(c, ShowCondition));
    if |calls| > 0 {
      var prefix := calls[..|calls| - 1];
      assert AllAccepted(rules, prefix);
      ShowFlagsAreLastSet(rules, productId, shop, prefix);
      var before := ApplyAll(rules, c, prefix);
      var last := calls[|calls| - 1];
      var after := Apply(rules, before.command, last);
      assert SameExcept(before.command, after.command, FieldOf(last));
    }
  }
}

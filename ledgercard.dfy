/** The ledger card's signing guard: a card can be signed once, only when
    it names an entry, and not while a signature is in flight. The flags
    `signed` and `isSigning` are the card's state; the store call in between
    is the `signEntry` mutation. */
module LedgerCard {
  import opened Wrappers
  import Ledger

  const SignedChat :=
    "Signature verified, OPR. This " +
    "allocation is now an immutable part of " +
    "the Seaview Archive. The fibre-optic " +
    "lines are carrying your neural " +
    "signature to the lithic substrate."

  /** The card's props, with `None` for a prop that is not given. */
  datatype CardProps = CardProps(
    entryId: Option<nat>,
    date: Option<string>,
    allocation: Option<string>,
    verifiedBy: Option<string>,
    signedAt: Option<int>,
    signedBy: Option<string>)

  /** `Boolean(signedAt)`. */
  predicate SignedAtTruthy(signedAt: Option<int>) { signedAt.Some? && signedAt.value != 0 }

  /** The signer line: the signer once signed, falling back to the verifier;
      the verifier (default "Julian") before. */
  function SignerText(signed: bool, props: CardProps): (t: string)
    ensures !signed ==> t == props.verifiedBy.GetOr("Julian")
    ensures signed && props.signedBy.Some? && props.signedBy.value != "" ==> t == props.signedBy.value
    ensures signed && (props.signedBy.None? || props.signedBy.value == "") ==> t == props.verifiedBy.GetOr("Julian")
  {
    var verifiedBy := props.verifiedBy.GetOr("Julian");
    if signed && props.signedBy.Some? && props.signedBy.value != "" then props.signedBy.value else verifiedBy
  }

  class SignCard {
    var props: CardProps
    var signed: bool
    var isSigning: bool
    /** The chat events the card has emitted. */
    var chat: seq<string>

    constructor (props: CardProps)
      ensures this.props == props && signed == SignedAtTruthy(props.signedAt) && !isSigning && chat == []
    {
      this.props := props;
      signed := SignedAtTruthy(props.signedAt);
      isSigning := false;
      chat := [];
    }

    /** The sign button is enabled exactly when a click would start signing. */
    predicate Enabled()
      reads this
    {
      props.entryId.Some? && !signed && !isSigning
    }

    /** The click: a no-op unless enabled; otherwise signing begins. */
    method BeginSign() returns (started: bool)
      modifies this
      ensures started == old(Enabled())
      ensures isSigning == (old(isSigning) || started)
      ensures signed == old(signed) && chat == old(chat) && props == old(props)
    {
      started := Enabled();
      if started {
        isSigning := true;
      }
    }

    /** The end of the `signEntry` call: on success the card is signed and
        announces it once; either way signing is over. */
    method FinishSign(ok: bool)
      modifies this
      ensures !isSigning
      ensures signed == (old(signed) || ok)
      ensures chat == old(chat) + (if ok then [SignedChat] else [])
      ensures props == old(props)
    {
      if ok {
        signed := true;
        chat := chat + [SignedChat];
      }
      isSigning := false;
    }

    /** New props from the stored record: a truthy `signedAt` marks the card
        signed; nothing marks it unsigned again. */
    method Rerender(next: CardProps)
      modifies this
      ensures props == next
      ensures signed == (old(signed) || SignedAtTruthy(next.signedAt))
      ensures isSigning == old(isSigning) && chat == old(chat)
    {
      props := next;
      if SignedAtTruthy(next.signedAt) {
        signed := true;
      }
    }

    /** `handleSign` run to completion against the store. */
    method HandleSign(store: Ledger.LedgerStore, identity: Option<string>, now: int)
      requires store.Valid()
      modifies this, store
      ensures store.Valid() && props == old(props)
      ensures !old(Enabled()) ==>
        signed == old(signed) && isSigning == old(isSigning) && chat == old(chat) && store.rows == old(store.rows)
      ensures old(Enabled()) ==> !isSigning
      ensures old(Enabled()) ==>
        var res := Ledger.Sign(old(store.rows), identity, old(props).entryId.value, now);
        signed == (old(signed) || res.Success?) &&
        chat == old(chat) + (if res.Success? then [SignedChat] else []) &&
        store.rows == (if res.Success? then res.value.0 else old(store.rows))
    {
      var started := BeginSign();
      if started {
        var res := store.SignEntry(identity, props.entryId.value, now);
        FinishSign(res.Success?);
      }
    }
  }
}

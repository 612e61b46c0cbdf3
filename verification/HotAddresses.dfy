/** The hot wallet's deterministic receive addresses (src/hot_wallet/wallet.rs). */
module HotAddresses {
  import opened Bitcoin

  function ReceiveAddress(network: Network, owner: Key, index: nat): Address {
    Address(network, HotScript(P2tr, Receive(owner, index)))
  }

  function ChangeAddress(network: Network, owner: Key, index: nat): Address {
    Address(network, HotScript(P2tr, Change(owner, index)))
  }

  /** A wallet seen as its two address cursors. */
  class AddressCursor {
    const network: Network
    const owner: Key
    var next: nat
    var nextChange: nat

    /** `HotWallet::ephemeral`: a wallet that has revealed nothing yet. */
    constructor Ephemeral(network: Network, owner: Key)
      ensures this.network == network && this.owner == owner && next == 0 && nextChange == 0
    {
      this.network, this.owner, this.next, this.nextChange := network, owner, 0, 0;
    }

    method NextReceiveAddress() returns (address: Address)
      modifies this`next
      ensures address == ReceiveAddress(network, owner, old(next)) && next == old(next) + 1
    {
      address := ReceiveAddress(network, owner, next);
      next := next + 1;
    }

    method NextChangeAddress() returns (address: Address)
      modifies this`nextChange
      ensures address == ChangeAddress(network, owner, old(nextChange)) && nextChange == old(nextChange) + 1
    {
      address := ChangeAddress(network, owner, nextChange);
      nextChange := nextChange + 1;
    }
  }
}

/**
 * `TxBuilder`: the messages and memo of a transaction being assembled, and
 * the body and signer information built from them.
 */
module TxBuilding {
  import opened Wrappers
  import opened Chain

  /** The type URL of the public key a signer presents. */
  const PUB_KEY_TYPE_URL := "/cosmos.crypto.secp256k1.PubKey"
  /** `SIGN_MODE_DIRECT`. */
  const SIGN_MODE_DIRECT: nat := 1

  /** `SignerInfo`: the signer's public key, its signing mode and the sequence it signs at. */
  datatype SignerInfo = SignerInfo(publicKey: Any, mode: nat, sequence: nat)

  /**
   * `make_signer_infos`: exactly one signer, the wallet, in direct mode at
   * `sequence`; `publicKey` stands for the wallet's encoded key.
   */
  function MakeSignerInfos(publicKey: seq<bv8>, sequence: nat): (infos: seq<SignerInfo>)
    ensures |infos| == 1
    ensures infos[0].sequence == sequence && infos[0].mode == SIGN_MODE_DIRECT
    ensures infos[0].publicKey.typeUrl == PUB_KEY_TYPE_URL
  {
    [SignerInfo(Any(PUB_KEY_TYPE_URL, OpaqueBytes(publicKey)), SIGN_MODE_DIRECT, sequence)]
  }

  /** The memo a body carries: the one set, or the empty string. */
  function MemoText(memo: Option<string>): (text: string)
    ensures memo.Some? ==> text == memo.value
    ensures memo.None? ==> text == ""
  {
    memo.GetOr("")
  }

  class TxBuilder {
    var messages: seq<Any>
    var memo: Option<string>
    var skipCodeCheck: bool

    /** `TxBuilder::default()`: no messages, no memo, and the code check on. */
    constructor ()
      ensures messages == [] && memo == None && !skipCodeCheck
    {
      messages := [];
      memo := None;
      skipCodeCheck := false;
    }

    /** `add_message` / `add_message_mut`: append one message; nothing else changes. */
    method AddMessage(msg: Any)
      modifies this
      ensures messages == old(messages) + [msg]
      ensures memo == old(memo) && skipCodeCheck == old(skipCodeCheck)
      ensures MakeTxBody().messages == old(MakeTxBody().messages) + [msg]
    {
      messages := messages + [msg];
    }

    /** `set_memo`: the body will carry `m`. */
    method SetMemo(m: string)
      modifies this
      ensures memo == Some(m)
      ensures messages == old(messages) && skipCodeCheck == old(skipCodeCheck)
      ensures MakeTxBody().memo == m
    {
      memo := Some(m);
    }

    /** `set_optional_memo`: replace the memo, clearing it with `None`. */
    method SetOptionalMemo(m: Option<string>)
      modifies this
      ensures memo == m
      ensures messages == old(messages) && skipCodeCheck == old(skipCodeCheck)
      ensures m.None? ==> MakeTxBody().memo == ""
    {
      memo := m;
    }

    /** `skip_code_check`: whether a non-zero result code is accepted as success. */
    method SetSkipCodeCheck(skip: bool)
      modifies this
      ensures skipCodeCheck == skip
      ensures messages == old(messages) && memo == old(memo)
    {
      skipCodeCheck := skip;
    }

    /**
     * `make_tx_body`: the messages in the order added, the memo (empty when
     * none was set), no timeout height and no extension options.
     */
    function MakeTxBody(): (body: TxBody)
      reads this
      ensures body.messages == messages
      ensures body.memo == MemoText(memo)
      ensures body.timeoutHeight == 0
      ensures body.extensionOptions == [] && body.nonCriticalExtensionOptions == []
    {
      TxBody(messages, MemoText(memo), 0, [], [])
    }
  }
}

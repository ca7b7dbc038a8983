/**
 * The signature-timeout step of the message processor
 * (blockchainState/messageProcessor/signatureTimeout.go): a guard that accepts
 * only messages tagged as signature timeouts.
 */
module MessageProcessor {
  import opened Wrappers

  newtype byte = x: int | 0 <= x < 256

  /** The tag constants.SIGNATURE_TIMEOUT_MSG; its value is defined outside this model. */
  const SignatureTimeoutMsg: byte

  type Payload     // everything of a message except its type tag
  type Processor   // the MessageProcessor receiver; its fields are unused here

  /** An inbound message as the guard sees it: its type tag and the rest. */
  datatype Message = Message(msgType: byte, payload: Payload)

  /** The error a processing step returns. */
  datatype ProcessError = ProcessError(message: string)

  const InvalidTypeMessage := "Invalid message type forwarded for processing"

  /** Succeeds exactly on signature-timeout messages, and fails with the invalid-type error otherwise. */
  function ProcessSignatureTimeoutMessage(mp: Processor, msg: Message): (r: Outcome<ProcessError>)
    ensures r.Pass? <==> msg.msgType == SignatureTimeoutMsg
    ensures r.Fail? ==> r.error == ProcessError(InvalidTypeMessage)
  {
    if msg.msgType != SignatureTimeoutMsg then Fail(ProcessError(InvalidTypeMessage)) else Pass
  }

  /** The outcome depends on the message's type tag alone: not on its payload, nor on the receiver. */
  lemma DecidedByTypeAlone(mp1: Processor, msg1: Message, mp2: Processor, msg2: Message)
    requires msg1.msgType == msg2.msgType
    ensures ProcessSignatureTimeoutMessage(mp1, msg1) == ProcessSignatureTimeoutMessage(mp2, msg2)
  {
  }
}

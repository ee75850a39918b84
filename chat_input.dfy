/** The chat input box: the send guard shared by the Enter key and the send
    button, and the speech-recognition toggle. The message text is owned by
    the parent page and may in principle be absent. */
module ChatInput {
  import opened Common

  /** `message?.trim() !== "" && !processing`: an absent message yields
      `undefined`, which is not "", so the guard lets it through. */
  predicate CanSend(message: Option<string>, processing: bool) {
    !processing && (message.None? || Trim(Js, message.value) != "")
  }

  /** `processing || !message?.trim()`. */
  predicate SendDisabled(message: Option<string>, processing: bool) {
    processing || message.None? || Trim(Js, message.value) == ""
  }

  /** Whether a key press sends: Enter without Shift while not processing. */
  predicate KeySends(key: string, shift: bool, processing: bool) {
    key == "Enter" && !shift && !processing
  }

  /** For a present message the button is enabled exactly when the guard
      passes: the message is not blank and nothing is processing. */
  lemma {:induction false} ButtonMatchesGuard(text: string, processing: bool)
    ensures !SendDisabled(Some(text), processing) <==> CanSend(Some(text), processing)
    ensures CanSend(Some(text), processing) <==> !processing && !Blank(Js, text)
  {
    TrimEmptyIffBlank(Js, text);
  }

  /** Only an absent message separates the two: the guard passes where the
      button is disabled. */
  lemma {:induction false} AbsentMessagePassesGuard()
    ensures CanSend(None, false) && SendDisabled(None, false)
  {
  }

  /** A call of the recognition object. */
  datatype RecognizerCall = Start | Stop

  class ChatInputBox {
    /** Whether the browser offers speech recognition. */
    const speechSupported: bool
    var message: Option<string>
    var isListening: bool
    /** The messages handed to the send callback, oldest first. */
    var sent: seq<Option<string>>
    /** The calls made on the recognition object, oldest first. */
    var calls: seq<RecognizerCall>

    constructor(speechSupported: bool, message: Option<string>)
      ensures this.speechSupported == speechSupported && this.message == message
      ensures !isListening && sent == [] && calls == []
    {
      this.speechSupported := speechSupported;
      this.message := message;
      isListening := false;
      sent := [];
      calls := [];
    }

    /** Sends the message and clears it only when the guard passes; otherwise
        nothing changes. */
    method HandleSendMessage(processing: bool)
      modifies this
      ensures CanSend(old(message), processing) ==> sent == old(sent) + [old(message)] && message == Some("")
      ensures !CanSend(old(message), processing) ==> sent == old(sent) && message == old(message)
      ensures isListening == old(isListening) && calls == old(calls)
    {
      if (message.None? || Trim(Js, message.value) != "") && !processing {
        sent := sent + [message];
        message := Some("");
      }
    }

    /** The key handler: Enter without Shift while not processing sends. */
    method KeyDown(key: string, shift: bool, processing: bool)
      modifies this
      ensures KeySends(key, shift, processing) && CanSend(old(message), processing) ==>
        sent == old(sent) + [old(message)] && message == Some("")
      ensures !(KeySends(key, shift, processing) && CanSend(old(message), processing)) ==>
        sent == old(sent) && message == old(message)
      ensures isListening == old(isListening) && calls == old(calls)
    {
      if key == "Enter" && !shift && !processing {
        HandleSendMessage(processing);
      }
    }

    /** Toggles listening. `startThrows` is what the recognition object's
        `start` does this time. */
    method ToggleSpeechRecognition(startThrows: bool)
      modifies this
      ensures !speechSupported ==> isListening == old(isListening) && calls == old(calls)
      ensures speechSupported && old(isListening) ==> !isListening && calls == old(calls) + [Stop]
      ensures speechSupported && !old(isListening) ==>
        isListening == !startThrows && calls == old(calls) + [Start]
      ensures message == old(message) && sent == old(sent)
    {
      if !speechSupported {
        return;
      }
      if isListening {
        calls := calls + [Stop];
        isListening := false;
      } else {
        calls := calls + [Start];
        if startThrows {
          isListening := false;
        } else {
          isListening := true;
        }
      }
    }

    /** A recognition result replaces the message with the transcript. */
    method OnResult(transcript: string)
      modifies this
      ensures message == Some(transcript) && !isListening
      ensures sent == old(sent) && calls == old(calls)
    {
      message := Some(transcript);
      isListening := false;
    }

    /** A recognition error or the end of recognition stops listening. */
    method OnErrorOrEnd()
      modifies this
      ensures !isListening && message == old(message)
      ensures sent == old(sent) && calls == old(calls)
    {
      isListening := false;
    }
  }
}

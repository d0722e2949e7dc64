/** The error classifier `minecraftError2text` (node_helper.js:82-95): turns
    the fault raised while contacting the status service into the sentence
    shown to the user. */
module ErrorText {
  import opened Wrappers
  import opened JsText

  /** The properties of a Node.js error object the classifier reads. A
      missing property is None; an `errno` that is not a string is None too,
      since it is strictly equal to none of the string cases either. */
  datatype Fault = Fault(errno: Option<string>, address: Option<string>, port: Option<nat>, message: string)

  const TimedOut := "ETIMEDOUT"
  const NotFound := "ENOTFOUND"
  const Refused := "ECONNREFUSED"
  const Reset := "ECONNRESET"
  const HostUnreachable := "EHOSTUNREACH"
  const NetUnreachable := "ENETUNREACH"

  /** The codes the classifier recognises. */
  const KnownCodes: set<string> := {TimedOut, NotFound, Refused, Reset, HostUnreachable, NetUnreachable}

  /** The codes whose sentence names the fault's address. */
  const AddressCodes: set<string> := {NotFound, Refused, HostUnreachable, NetUnreachable}

  predicate IsKnown(errno: Option<string>) {
    errno.Some? && errno.value in KnownCodes
  }

  predicate NamesAddress(errno: Option<string>) {
    errno.Some? && errno.value in AddressCodes
  }

  const TimedOutText := "Timed-out contacting Minecraft server"
  const ResetText := "Minecraft server closed the connection"
  const NotFoundPrefix := "Host "
  const NotFoundSuffix := " was not found"
  const RefusedPrefix := "Connection refused from "
  const UnreachableSuffix := " is unreachable"
  const NetUnreachablePrefix := "Network between here and "

  /** The user-facing sentence for a fault. Every fault gets one: an
      unrecognised or missing code yields the fault's own message. */
  function Classify(f: Fault): (r: string)
    ensures IsKnown(f.errno) ==> |r| > 0
    ensures !IsKnown(f.errno) ==> r == f.message
  {
    match f.errno
    case Some(code) =>
      if code == TimedOut then TimedOutText
      else if code == NotFound then NotFoundPrefix + ShowString(f.address) + NotFoundSuffix
      else if code == Refused then RefusedPrefix + ShowString(f.address) + ":" + ShowNumber(f.port)
      else if code == Reset then ResetText
      else if code == HostUnreachable then ShowString(f.address) + UnreachableSuffix
      else if code == NetUnreachable then NetUnreachablePrefix + ShowString(f.address) + UnreachableSuffix
      else f.message
    case None => f.message
  }

  /** The two fixed sentences: a time-out and a reset yield their text
      whatever the address, port and message. */
  lemma FixedSentences(f: Fault)
    ensures f.errno == Some(TimedOut) ==> Classify(f) == "Timed-out contacting Minecraft server"
    ensures f.errno == Some(Reset) ==> Classify(f) == "Minecraft server closed the connection"
  {
  }

  /** The templated sentences, with the address (and, for a refused
      connection, the port) put in as string concatenation prints them. */
  lemma TemplatedSentences(f: Fault)
    ensures f.errno == Some(NotFound) ==>
      Classify(f) == "Host " + ShowString(f.address) + " was not found"
    ensures f.errno == Some(HostUnreachable) ==>
      Classify(f) == ShowString(f.address) + " is unreachable"
    ensures f.errno == Some(NetUnreachable) ==>
      Classify(f) == "Network between here and " + ShowString(f.address) + " is unreachable"
    ensures f.errno == Some(Refused) ==>
      Classify(f) == "Connection refused from " + ShowString(f.address) + ":" + ShowNumber(f.port)
  {
  }

  /** The address can be read back out of every sentence that names it:
      the text between the template's fixed prefix and suffix, or, for a
      refused connection, the text before the last colon. */
  lemma {:induction false} AddressReadBack(f: Fault)
    requires NamesAddress(f.errno)
    ensures f.errno == Some(NotFound) ==>
      Classify(f)[|NotFoundPrefix|..|Classify(f)| - |NotFoundSuffix|] == ShowString(f.address)
    ensures f.errno == Some(HostUnreachable) ==>
      Classify(f)[..|Classify(f)| - |UnreachableSuffix|] == ShowString(f.address)
    ensures f.errno == Some(NetUnreachable) ==>
      Classify(f)[|NetUnreachablePrefix|..|Classify(f)| - |UnreachableSuffix|] == ShowString(f.address)
    ensures f.errno == Some(Refused) ==>
      SplitAtLast(Classify(f)[|RefusedPrefix|..], ':') == Some((ShowString(f.address), ShowNumber(f.port)))
  {
    var a := ShowString(f.address);
    var r := Classify(f);
    if f.errno == Some(NotFound) {
      assert r == NotFoundPrefix + a + NotFoundSuffix;
      assert r[|NotFoundPrefix|..|r| - |NotFoundSuffix|] == a;
    } else if f.errno == Some(HostUnreachable) {
      assert r == a + UnreachableSuffix;
      assert r[..|r| - |UnreachableSuffix|] == a;
    } else if f.errno == Some(NetUnreachable) {
      assert r == NetUnreachablePrefix + a + UnreachableSuffix;
      assert r[|NetUnreachablePrefix|..|r| - |UnreachableSuffix|] == a;
    } else if f.errno == Some(Refused) {
      var p := ShowNumber(f.port);
      assert r == RefusedPrefix + (a + [':'] + p);
      assert r[|RefusedPrefix|..] == a + [':'] + p;
      if f.port.None? {
        assert p == "undefined";
      }
      SplitAtLastJoin(a, ':', p);
    }
  }

  /** The port changes the sentence only for a refused connection, and there
      every change of port does. */
  lemma PortMattersOnlyWhenRefused(f: Fault, p: Option<nat>)
    ensures Classify(f.(port := p)) == Classify(f) <==> (f.errno != Some(Refused) || p == f.port)
  {
    if f.errno == Some(Refused) && Classify(f.(port := p)) == Classify(f) {
      AddressReadBack(f);
      AddressReadBack(f.(port := p));
      ShowNumberInjective(p, f.port);
    }
  }

  /** The address changes the sentence exactly for the four codes that name
      it, and there every change of its printed text does. */
  lemma AddressMattersOnlyWhenNamed(f: Fault, a: Option<string>)
    ensures Classify(f.(address := a)) == Classify(f) <==>
      (!NamesAddress(f.errno) || ShowString(a) == ShowString(f.address))
  {
    if NamesAddress(f.errno) && Classify(f.(address := a)) == Classify(f) {
      AddressReadBack(f);
      AddressReadBack(f.(address := a));
    }
  }

  /** The fault's own message is used exactly when the code is not one of
      the six, and then it is passed through unchanged. */
  lemma MessageMattersOnlyWhenUnknown(f: Fault, m: string)
    ensures Classify(f.(message := m)) == Classify(f) <==> (IsKnown(f.errno) || m == f.message)
  {
  }
}

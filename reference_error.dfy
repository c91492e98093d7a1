/**
 * ReferenceException: the internal error raised when a required dependency
 * cannot be located. The locator is an arbitrary value; `str(locator)` is
 * Python's text conversion and enters as the parameter `text`.
 */
module References {
  import opened Wrappers
  import opened Errors

  const ReferenceMessagePrefix: string := "Cannot locate reference: "
  const ReferenceCode: string := "REF_ERROR"
  const LocatorKey: string := "locator"

  /** The message: the prefix, then the locator's text, or `<None>` without a locator. */
  function ReferenceMessage<L>(locator: Option<L>, text: L -> string): (m: string)
    ensures ReferenceMessagePrefix <= m
    ensures locator.Some? ==> m[|ReferenceMessagePrefix|..] == text(locator.value)
    ensures locator.None? ==> m == "Cannot locate reference: <None>"
  {
    ReferenceMessagePrefix + (if locator.Some? then text(locator.value) else "<None>")
  }

  /** ReferenceException(correlation_id, locator): an internal error with the
      fixed code, the synthesised message and the locator attached as a detail. */
  function ReferenceException<L>(correlationId: Option<string> := None, locator: Option<L> := None,
                             text: L -> string): (e: ApplicationError<Option<L>>)
    ensures e.category == Internal && e.status == 500
    ensures e.code == "REF_ERROR"
    ensures e.correlationId == correlationId
    ensures e.message == Some(ReferenceMessage(locator, text))
    ensures e.details == map["locator" := locator]
  {
    InternalException(correlationId, Some(ReferenceCode), Some(ReferenceMessage(locator, text)))
      .WithDetails(LocatorKey, locator)
  }

  // ---------------------------------------------------------------------------
  // Properties

  /** The message names the locator: two locators give the same message only
      when their texts agree, and a located reference never reads `<None>` unless
      its text is `<None>`. */
  lemma {:induction false} ReferenceMessageInjective<L>(a: Option<L>, b: Option<L>, text: L -> string)
    requires ReferenceMessage(a, text) == ReferenceMessage(b, text)
    ensures a.Some? && b.Some? ==> text(a.value) == text(b.value)
    ensures a.Some? && b.None? ==> text(a.value) == "<None>"
  {
    var n := |ReferenceMessagePrefix|;
    assert ReferenceMessage(a, text)[n..] == ReferenceMessage(b, text)[n..];
  }

  /** `ReferenceException(None, "my-locator")` */
  lemma ReferenceExceptionExample()
    ensures var e := ReferenceException(None, Some("my-locator"), (s: string) => s);
      && e.message == Some("Cannot locate reference: my-locator")
      && e.details["locator"] == Some("my-locator")
      && e.code == "REF_ERROR" && e.correlationId == None
  {
    assert ReferenceMessagePrefix + "my-locator" == "Cannot locate reference: my-locator";
  }

  /** `ReferenceException()`: no correlation id, no locator. */
  lemma ReferenceExceptionWithoutLocator<L>(text: L -> string)
    ensures var e := ReferenceException(None, None, text);
      && e.message == Some("Cannot locate reference: <None>")
      && "locator" in e.details && e.details["locator"] == None
  {
  }
}

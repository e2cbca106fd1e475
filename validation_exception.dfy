/**
 * The validation failure of the application layer and its field-to-message error map
 * (application/exception/AdvertisementValidationException.java).
 */
module AdvertisementValidation {

  /** The message of an exception built with the no-argument constructor. */
  const DEFAULT_MESSAGE := "Advertisement validation failed"

  /**
   * A validation failure.  The message is fixed at construction; the error map is a
   * mutable field filled by `AddError`.
   */
  class AdvertisementValidationException {
    const message: string
    var errors: map<string, string>

    /** The default message and no errors yet. */
    constructor ()
      ensures message == DEFAULT_MESSAGE
      ensures errors == map[]
    {
      message := DEFAULT_MESSAGE;
      errors := map[];
    }

    /** A custom message and no errors yet. */
    constructor WithMessage(message: string)
      ensures this.message == message
      ensures errors == map[]
    {
      this.message := message;
      errors := map[];
    }

    /** A custom message and the given errors. */
    constructor WithErrors(message: string, errors: map<string, string>)
      ensures this.message == message
      ensures this.errors == errors
    {
      this.message := message;
      this.errors := errors;
    }

    /**
     * `addError`: records `errorMessage` for `field`, replacing an earlier message for the
     * same field, and returns this same exception so that calls can be chained.
     */
    method AddError(field: string, errorMessage: string) returns (self: AdvertisementValidationException)
      modifies this
      ensures self == this
      ensures errors == old(errors)[field := errorMessage]
      ensures errors.Keys == old(errors).Keys + {field}
      ensures errors[field] == errorMessage
      ensures forall f :: f in old(errors) && f != field ==> errors[f] == old(errors)[f]
    {
      errors := errors[field := errorMessage];
      return this;
    }
  }
}

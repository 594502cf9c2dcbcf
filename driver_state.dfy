/** The observable status of a frame-oriented link: the `State` record a driver keeps,
    the error codes it carries, and the frames that travel over the link. */
module DriverState {

  /** `unsigned int` of the source: the internal (implementation-defined) error code. */
  newtype uint32 = x: int | 0 <= x < 0x1_0000_0000

  /** `State::DriverState`: closed, open or ready. */
  datatype LinkStatus = Closed | Open | Ready

  /** A `boost::system::error_code`: a value within a category. Two codes are equal when
      both value and category agree; a code tests as an error when its value is not 0. */
  datatype ErrorCode = ErrorCode(value: int, category: nat) {
    predicate Failed() {
      value != 0
    }
  }

  /** The default-constructed error code (value 0 in the system category). */
  const NoError: ErrorCode := ErrorCode(0, 0)

  /** `State`: link status, transport error code and internal error code. */
  datatype State = State(linkStatus: LinkStatus, errorCode: ErrorCode, internalError: uint32) {
    predicate IsReady() {
      linkStatus == Ready
    }
  }

  /** The state of a freshly constructed driver: closed, without errors. */
  const Initial: State := State(Closed, NoError, 0)

  /** A frame: a header identifier and its payload, copied by value. */
  datatype Frame = Frame(id: nat, data: seq<bv8>)
}

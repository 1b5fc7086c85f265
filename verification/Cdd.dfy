/** Types of the cloud device description that several components share (cdd/cdd.go). */
module Cdd {

  datatype DuplexType = NoDuplex | LongEdge | ShortEdge

  /** The native option, as key:value, that stands for a duplex type. */
  type DuplexVendorMap = map<DuplexType, string>
}

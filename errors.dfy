/** The error values of the package (errors.go and writer.go); only their
    identity and payload matter here, not their message formatting. */
module Errors {

  datatype Error =
    | ErrMonitorConfig(msg: string)
    | ErrorWriterConfig(msg: string)
    | ErrWriterNotFound(name: string)
    | ErrNotFoundMetric(id: int, name: string)
    | ErrUnexpectMetricType
    | ErrHTTPPort
}

/** What happens to a number read from DynamoDB on its way back out as
    JSON: boto3 reads every number as a `decimal.Decimal`, and
    `json.dumps` without a `default=` refuses one with a `TypeError`. */
module Decimal {
  /** The error text for a `Decimal` value. */
  const DecimalNotSerializable := "Object of type Decimal is not JSON serializable"
  /** The error text for a `Decimal` dict key. */
  const DecimalKeyRefused := "keys must be str, int, float, bool or None, not Decimal"
}

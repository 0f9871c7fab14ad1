/** What the parts that route, split and execute transactions have in common. */
module Transactions {

  type Key = string

  datatype Kind = Unknown | SingleHome | MultiHome
}

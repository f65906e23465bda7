/** A saved send-money request. */
module Transactions {

  datatype TransactionModel = TransactionModel(
    id: string,
    serviceName: string,
    providerName: string,
    formData: map<string, string>)
}

/** The records the parser passes between its stages. */
module Types {

  /** One live auction found on the calendar page. */
  datatype Auction = Auction(time: string, link: string)

  /**
   * One vehicle lot. As in the program every field is text: `Year` and `BuyNow` are
   * converted to numbers only when the lot is written to the database.
   */
  datatype Lot = Lot(lot: string, year: string, vin: string, buyNow: string)

  /** The configuration file's settings. */
  datatype Config = Config(
    databaseUrl: string,
    goroutinesMultiplier: int,
    sendTo: string,
    telegramBotKey: string)
}

/** The four products the app seeds an empty store with, and falls back to
    when the store cannot be read. The source gives them no `ean`; here it is
    the empty string. */
module DummyData {
  import opened Types

  const ParleG := Product("8901030974328", "8901030974328", "", "Parle-G Gold Biscuits",
    "A larger pack of the classic Parle-G biscuits, known for their glucose content.",
    100.0, "PGG-10", 50, 10)
  const Cadbury := Product("8901233020977", "8901233020977", "", "Cadbury Dairy Milk Silk",
    "A smooth and creamy milk chocolate bar from Cadbury.",
    150.0, "CDS-15", 8, 15)
  const TataTea := Product("8901725164016", "8901725164016", "", "Tata Tea Gold",
    "A blend of Assam CTC and long-leaf teas.",
    500.0, "TTG-50", 25, 5)
  const Maggi := Product("8901030724831", "8901030724831", "", "Maggi 2-Minute Noodles",
    "Instant noodles that are quick and easy to prepare.",
    12.0, "MG-1", 120, 24)

  const DummyProducts: seq<Product> := [ParleG, Cadbury, TataTea, Maggi]
}

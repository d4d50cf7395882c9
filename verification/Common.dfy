/** The fixed sizes of the shared memory image, and the optional value. */
module Common {

  datatype Option<+T> = None | Some(value: T)

  const SLOTS: nat := 16          // HAKO_DATA_MAX_ASSET_NUM
  const CHANNEL_MAX: nat := 8192  // HAKO_PDU_CHANNEL_MAX
  const MAX_SEM: nat := 1024      // HAKO_CONFIG_MAX_SEM
  const TWO32 := 0x1_0000_0000
  const TWO64 := 0x1_0000_0000_0000_0000
}

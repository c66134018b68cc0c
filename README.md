# Windows UART port driver: device table and lifecycle

This project models the Windows backend of the HAL UART driver. That backend puts
the HAL's UART contract on top of the libserialport library. It keeps a table
with one optional device record per logical port, numbered `0 .. MAX_UART_PORTS-1`.
Each record has a fixed port number, a host name (`"COM"` followed by the port
number plus one), a copy of the caller's configuration, and an open flag.

- `init` empties the table.
- `deinit` closes every record in the table and empties its slot.
- `open` checks its arguments, builds a record, asks the library for the port,
  opens it and applies the line settings. It then marks the record open and
  installs it in the port's slot.
- `close` releases the library port and clears the open flag.
- `read` and `write` return -1 for a null or closed record or a null buffer.
  Otherwise they forward to the library's blocking call and turn every
  negative result into -1.
- `bytes_available` returns 0 for a null or closed record. Otherwise it returns
  the library's waiting count, cast to `size_t` as it is.
- `flush` does nothing for a null or closed record. Otherwise it asks the
  library to discard both buffers. It returns nothing.

The model has three modules:

- `Wrappers` holds `Option`, which stands in for a nullable pointer.
- `UartConfig` holds the pure translations: the baud rate to its number, the
  stop bits and parity to the library's values, and the port number to its
  host name. It also proves that the decimal rendering of the name reads back
  to the port number.
- `UartDriver` holds the `Device` and `Registry` classes and the driver
  operations. The table is an `array<Device?>`. The operations update it and
  the records' `isOpen` field in place.

Every library call is replaced by the result it reports. That result is a
method parameter:

- `allocOk` is the result of `malloc`.
- `portFound` is the result of `sp_get_port_by_name`.
- `portOpened` is the result of `sp_open`.
- `transportResult` is what `sp_blocking_read` or `sp_blocking_write` returns.
- `waiting` is what `sp_input_waiting` returns.

Effects on the library are returned as values. `Open` returns the `LineSettings`
it applies. `Close` reports whether it released the port. `Flush` reports
whether it issued the flush.

## Model

| member | source | states |
|---|---|---|
| `UartConfig.BaudRateToInt` | source/port/win/port_uart.c:19-29 | the result is always one of 9600, 19200, 38400, 57600, 115200; it is 9600 exactly for the 9600 rate and for any unrecognised enumeration value |
| `UartConfig.BaudRateOf` | source/port/win/port_uart.c:19-29 | the inverse of the baud-rate table: it is defined exactly on the five standard rates and gives a named rate |
| `UartConfig.BaudRateRoundTrip` | source/port/win/port_uart.c:22-26 | for each named rate, its number maps back to that rate and to no other |
| `UartConfig.StopBitsCount` | source/port/win/port_uart.c:82 | the stop-bit count passed on is 1 or 2, and it is 2 exactly when the configuration asks for two stop bits |
| `UartConfig.SpParityOf` | source/port/win/port_uart.c:84-89 | the library parity is odd exactly when odd is requested, even exactly when even is requested, and none for every other value |
| `UartConfig.SettingsFor` | source/port/win/port_uart.c:80-91 | the settings applied after opening are the configured rate's number (`BaudRateToInt`), 8 data bits, the translated stop bits (`StopBitsCount`: 2 exactly when requested, otherwise 1), the translated parity (`SpParityOf`), and no flow control |
| `UartConfig.Decimal` | source/port/win/port_uart.c:61 | the `%u` rendering is non-empty, is all digits, has no leading zero, and is one digit exactly for numbers below 10 |
| `UartConfig.DecimalRoundTrip` | source/port/win/port_uart.c:61 | reading a rendered number back gives the number |
| `UartConfig.DecimalValuePositive` | source/port/win/port_uart.c:61 | a string of digits that does not start with 0 has a positive value |
| `UartConfig.DecimalOfValue` | source/port/win/port_uart.c:61 | rendering the value of a digit string with no leading zero gives that string back, so rendering is onto the canonical numerals |
| `UartConfig.PortName` | source/port/win/port_uart.c:60-62 | the host name is "COM" followed by digits with no leading zero whose value is the port number plus one |
| `UartConfig.PortNameUnique` | source/port/win/port_uart.c:61 | any name that meets PortName's contract is PortName's result, so the contract fixes the name as exactly the `%u` rendering |
| `UartConfig.PortNameInjective` | source/port/win/port_uart.c:61 | two ports with the same host name are the same port |
| `UartConfig.FirstPortIsCom1` | source/port/win/port_uart.c:61 | port 0 is named "COM1" |
| `UartDriver.Device.constructor` | source/port/win/port_uart.c:55-65 | a newly built record carries the given port number, name and configuration and is not open |
| `UartDriver.Registry.constructor` | source/port/win/port_uart.c:7 | the static table has `MAX_UART_PORTS` slots, all empty |
| `UartDriver.Registry.Init` | source/port/win/port_uart.c:31-36 | afterwards every slot is empty and the table invariant holds; on an already empty table nothing changes |
| `UartDriver.Registry.Deinit` | source/port/win/port_uart.c:38-48 | afterwards every slot is empty, and every record that was in the table is closed; only the table and those records change |
| `UartDriver.Registry.Open` | source/port/win/port_uart.c:50-97 | returns null, and leaves the table as it was, exactly when the port is out of range, the configuration is null, allocation fails, or the port cannot be found or opened; otherwise it returns a fresh open record with the given number, name and configuration, applies `SettingsFor(cfg)`, and installs the record in slot `dev` with every other slot unchanged; a record it overwrites keeps its open flag (it is not closed); the table invariant (each occupied slot `i` holds record `i` named `PortName(i)`) is preserved |
| `UartDriver.Close` | source/port/win/port_uart.c:99-106 | the port is released exactly when the record is present and open; afterwards a present record is closed; nothing else changes, so the record stays in its slot |
| `UartDriver.CloseTwice` | source/port/win/port_uart.c:99-106 | close is idempotent: a second close releases nothing |
| `UartDriver.CloseInstalled` | source/port/win/port_uart.c:99-106 | closing the record in a slot leaves the table unchanged, with the now-closed record still installed |
| `UartDriver.TransferResult` | source/port/win/port_uart.c:122 | the reported result is never below -1; it is non-negative exactly when the library's result is, and then equals it |
| `UartDriver.Read` | source/port/win/port_uart.c:117-123 | -1 for a null or closed record or a null buffer; otherwise the library's count when it is non-negative and -1 on a library error; never below -1, and never above `size` when the library stays within `size` |
| `UartDriver.Write` | source/port/win/port_uart.c:125-131 | the same guards and normalisation as read, for the blocking write |
| `UartDriver.Flush` | source/port/win/port_uart.c:133-138 | the library flush is issued exactly when the record is present and open |
| `UartDriver.SizeT` | source/port/win/port_uart.c:113 | the cast to a 64-bit size_t agrees with its argument modulo 2^64, and sends a negative value into the upper half of the range |
| `UartDriver.BytesAvailableAsWritten` | source/port/win/port_uart.c:108-115 | 0 for a null or closed record; otherwise the `size_t` cast (`SizeT`) of the library's result, so a non-negative count is passed through and every negative error code wraps; for the error -1 the result is 2^64 - 1 |
| `UartDriver.BytesAvailable` | source/port/win/port_uart.c:108-115 | the corrected count: 0 for a null or closed record and for a library error; otherwise the library's count, positive exactly when bytes are waiting on an open record |

## Left out

- The libserialport calls are not modelled. These are `sp_get_port_by_name`, `sp_open`, `sp_set_*`, `sp_blocking_read`, `sp_blocking_write`, `sp_input_waiting`, `sp_flush`, `sp_close` and `sp_free_port`. Only the results they report are modelled, as parameters.
- The results of `sp_set_baudrate`, `sp_set_bits`, `sp_set_stopbits`, `sp_set_parity` and `sp_set_flowcontrol` are ignored by the code. The model ignores them too, so a failed setting does not fail `open`.
- The one-second blocking timeouts and the bytes moved into or out of the buffer are not modelled, because they are transport behaviour. `Read` and `Write` take the buffer only as present or null.
- `malloc`, `free` and `strdup` are modelled only as building a fresh record, with `allocOk` standing for a failed `malloc`. Memory release is not modelled. An unchecked `strdup` failure shows up as the port lookup failing (`portFound` false).
- `hal_uart_byte_read` and `hal_uart_byte_write` are left out. They forward to `hal_uart_read` and `hal_uart_write` in the HAL dispatch layer, and that layer is not part of this model.
- `deinit` calls `hal_uart_close`. That dispatcher is not part of this model, so `Deinit` calls `Close` directly.
- The `HAL_UART_DRIVER` function-pointer table is left out, because it is only wiring.
- The `interrupt_handler` field is left out, because it is never set. The `port` field is also left out: the open flag stands for whether a library port is held.
- `MAX_UART_PORTS` (`HAL_UART_NUM_PORTS`) and the HAL enumerations are defined in `hal.h`, which is not part of this model. The capacity is the `Registry` constructor's parameter. The enumerations are datatypes, and each has an extra constructor for any unnamed integer value. The configuration holds only the baud rate, stop bits and parity.
- `port_uart_open` is declared `void` but returns pointers. It is modelled as returning `Device?`.
- Port numbers are modelled as `nat`. Whether a negative port value could get past the bounds check depends on how `hal_uart_port_t` is defined in `hal.h`, which is not part of this model. Negative port values are not modelled.
- The `snprintf` buffer holds 16 bytes. Truncation is not modelled, because `"COM"` plus any 32-bit unsigned number fits in it.
- The table is not synchronised. The model is single-threaded, as the code is.
- `Registry.Open` models the overwrite leak as written: the record already in the slot is dropped without being closed, and it keeps its open flag. Its library port is never released, even by `deinit`.
- `UartDriver.Close` models the code as written: it never removes the record from its slot.
- `UartDriver.Read` and `UartDriver.Write` model the library's result as an unbounded integer. The C code's `int32_t` narrowing is not modelled, because libserialport returns an `int`.

## Findings

| source | as written | input that shows it | evidently intended | confidence | as-written member | corrected member |
|---|---|---|---|---|---|---|
| source/port/win/port_uart.c:113 | `bytes_available` casts the result of `sp_input_waiting` to `size_t`. That result is a byte count or a negative libserialport error code. | an open device on which `sp_input_waiting` returns a negative error code, for example `SP_ERR_ARG` (-1): the call reports 2^64 - 1 bytes available on a 64-bit build | a library error reports no bytes available (0), as a null or closed device does | medium, not executed | `UartDriver.BytesAvailableAsWritten` | `UartDriver.BytesAvailable` |
